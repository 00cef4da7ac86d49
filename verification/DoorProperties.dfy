/** What holds of the doors after every pass, over repeated passes, across a GSX restart and across a save. */
module DoorProperties {
  import opened Options
  import opened MemoryBags
  import opened DoorModel

  // ----- One pass -----

  /** Why a door's target may still disagree with what its vehicles want after a pass. */
  predicate IsANamedHold(before: Slot, after: Slot, r: Synced, door: GsxDoor, held: bool, vehicles: map<Vehicle, real>, position: DoorPosition) {
    match r.outcome
    case WaitsForVehicles =>
      after.lastTarget == ToOpen && before.inherited && after.inherited && !held && !HaveVehiclesArrived(door, vehicles)
    case Moves => before.exit.moving
    case InTransit => 0 < after.transit <= TRANSIT_BOUND && IsPlaced(position) && position != after.lastTarget.Position()
    case Unread => position == Pending
    case _ => false
  }

  lemma DoorAgreesOrIsHeld(slot: Slot, t: Trust, vehicles: map<Vehicle, real>, door: GsxDoor, held: bool, position: DoorPosition)
    requires NO_TRANSIT <= slot.transit <= TRANSIT_BOUND
    ensures var r := SyncDoor(slot, t, vehicles, door, held, position);
            && NO_TRANSIT <= r.slot.transit <= TRANSIT_BOUND
            && (ChangeIsDue(r.slot.lastTarget, r.wantsOpen) <==> IsANamedHold(slot, r.slot, r, door, held, vehicles, position))
            && (r.wantsOpen ==> !held)
            && (r.outcome == Written(true) ==> r.wantsOpen && slot.lastTarget != ToOpen && position != Open)
            && (r.outcome == Written(false) ==> !r.wantsOpen && slot.lastTarget == ToOpen && position != Closed)
            && (r.slot.lastTarget != slot.lastTarget ==> r.slot.lastTarget == TargetOf(r.wantsOpen))
            && (r.outcome.Written? ==> r.slot.transit == 0)
  {
    var looked := Disinherited(Aged(slot, position), door, vehicles);
    var r := SyncDoor(slot, t, vehicles, door, held, position);
    OutcomeIsNamed(looked, r.wantsOpen, held, position);
  }

  /** What the outcome says of the target that it leaves, for a door whose transit has aged. */
  lemma OutcomeIsNamed(looked: Slot, wantsOpen: bool, held: bool, position: DoorPosition)
    ensures var outcome := OutcomeOf(looked, wantsOpen, held, position);
            var after := Settled(looked, wantsOpen, outcome);
            && (ChangeIsDue(after.lastTarget, wantsOpen)
                <==> outcome == WaitsForVehicles || outcome == Moves || outcome == InTransit || outcome == Unread)
            && (outcome == WaitsForVehicles ==> after == looked && looked.inherited && !held && !wantsOpen && looked.lastTarget == ToOpen)
            && (outcome == Moves ==> after == looked && looked.exit.moving)
            && (outcome == InTransit ==> after == looked && looked.transit != NO_TRANSIT
                                         && IsPlaced(position) && position != looked.lastTarget.Position())
            && (outcome == Unread ==> after == looked && position == Pending)
            && (outcome.Written? ==> outcome.open == wantsOpen && ChangeIsDue(looked.lastTarget, wantsOpen)
                                     && position != TargetOf(wantsOpen).Position() && after.transit == 0)
            && (after.lastTarget != looked.lastTarget ==> after.lastTarget == TargetOf(wantsOpen))
            && (after.transit == looked.transit || after.transit == 0)
  {
  }

  lemma SlotAfterSync(s: DoorSync, readings: Readings, positions: Positions, i: nat)
    requires s.Valid() && readings.started && i < DOOR_COUNT
    ensures Sync(s, readings, positions).slots[i] == SyncedAt(s, readings.vehicles, positions, i).slot
  {
  }

  /**
    After a pass every door's target agrees with what its vehicles want, or the door is in a named hold.  A door
    that is held closed is never opened, a door is closed only when its last target was open, and a target only
    changes to what is wanted.
  */
  lemma EveryDoorAgreesOrIsHeld(s: DoorSync, readings: Readings, positions: Positions, i: nat)
    requires s.Valid() && readings.started && i < DOOR_COUNT
    ensures var door := ALL_DOORS[i];
            var before := s.slots[i];
            var after := Sync(s, readings, positions).slots[i];
            var r := SyncedAt(s, readings.vehicles, positions, i);
            && (ChangeIsDue(after.lastTarget, r.wantsOpen)
                <==> IsANamedHold(before, after, r, door, s.IsHeldClosed(door), readings.vehicles, positions[i]))
            && (r.outcome == Written(true) ==> !s.IsHeldClosed(door) && before.lastTarget != ToOpen && positions[i] != Open)
            && (r.outcome == Written(false) ==> before.lastTarget == ToOpen && positions[i] != Closed)
            && (after.lastTarget != before.lastTarget ==> after.lastTarget == TargetOf(r.wantsOpen))
            && (r.outcome.Written? ==> after.transit == 0)
            && NO_TRANSIT <= after.transit <= TRANSIT_BOUND
  {
    SlotAfterSync(s, readings, positions, i);
    DoorAgreesOrIsHeld(s.slots[i], TrustBefore(s, readings.vehicles, positions, i), readings.vehicles, ALL_DOORS[i],
                       s.IsHeldClosed(ALL_DOORS[i]), positions[i]);
  }

  /** Closing all doors leaves every target closed, and commands exactly the doors that do not read closed or are on their way. */
  lemma ClosingAllClosesAll(s: DoorSync, positions: seq<DoorPosition>, i: nat)
    requires s.Valid() && |positions| == DOOR_COUNT && i < DOOR_COUNT
    ensures var after := CloseAll(s, positions);
            && after.Valid() && after.slots[i].lastTarget == ToClosed && !after.slots[i].inherited
            && (DoorWrite(ALL_DOORS[i], false) in CloseWrites(s, positions, DOOR_COUNT)
                <==> positions[i] != Closed || (s.slots[i].transit != NO_TRANSIT && s.slots[i].lastTarget == ToOpen))
  {
    CloseWritesAt(s, positions, DOOR_COUNT, i);
  }

  lemma {:induction false} CloseWritesAt(s: DoorSync, positions: seq<DoorPosition>, n: nat, i: nat)
    requires i < DOOR_COUNT && n <= DOOR_COUNT == |s.slots| == |positions|
    ensures DoorWrite(ALL_DOORS[i], false) in CloseWrites(s, positions, n) <==> i < n && !IsClosedAlready(s.slots[i], positions[i])
  {
    if n > 0 {
      CloseWritesAt(s, positions, n - 1, i);
      assert forall a, b | 0 <= a < DOOR_COUNT && 0 <= b < DOOR_COUNT && a != b :: ALL_DOORS[a] != ALL_DOORS[b];
    }
  }

  // ----- Repeated passes -----

  /** What one pass finds at a door. */
  datatype Round = Round(trust: Trust, vehicles: map<Vehicle, real>, held: bool, position: DoorPosition, exit: ExitWatch)

  function Play(slot: Slot, door: GsxDoor, round: Round): Synced {
    SyncDoor(slot.(exit := round.exit), round.trust, round.vehicles, door, round.held, round.position)
  }

  function Played(slot: Slot, door: GsxDoor, rounds: seq<Round>): Slot
    decreases |rounds|
  {
    if rounds == [] then slot else Played(Play(slot, door, rounds[0]).slot, door, rounds[1..])
  }

  predicate NothingIsWritten(slot: Slot, door: GsxDoor, rounds: seq<Round>)
    decreases |rounds|
  {
    rounds == []
    || (!Play(slot, door, rounds[0]).outcome.Written? && NothingIsWritten(Play(slot, door, rounds[0]).slot, door, rounds[1..]))
  }

  /** Until the next command a transit is over or has aged by every pass. */
  lemma {:induction false} TransitAges(slot: Slot, door: GsxDoor, rounds: seq<Round>)
    requires NO_TRANSIT <= slot.transit <= TRANSIT_BOUND && NothingIsWritten(slot, door, rounds)
    ensures var after := Played(slot, door, rounds).transit;
            after == NO_TRANSIT || (slot.transit != NO_TRANSIT && after == slot.transit + |rounds| <= TRANSIT_BOUND)
    decreases |rounds|
  {
    if rounds != [] {
      TransitAges(Play(slot, door, rounds[0]).slot, door, rounds[1..]);
    }
  }

  /**
    A change of mind is held up only in the thirty passes after the last command, whatever the passes in between
    found: less the passes that the command's transit had behind it already.
  */
  lemma TransitHoldsForThirtyPasses(slot: Slot, door: GsxDoor, rounds: seq<Round>, round: Round)
    requires NO_TRANSIT <= slot.transit <= TRANSIT_BOUND && NothingIsWritten(slot, door, rounds)
    ensures Play(Played(slot, door, rounds), door, round).outcome == InTransit ==>
            slot.transit != NO_TRANSIT && |rounds| + 1 <= TRANSIT_BOUND - slot.transit
  {
    TransitAges(slot, door, rounds);
  }

  predicate AllInTransit(slot: Slot, door: GsxDoor, rounds: seq<Round>)
    decreases |rounds|
  {
    rounds == [] || (Play(slot, door, rounds[0]).outcome == InTransit && AllInTransit(Play(slot, door, rounds[0]).slot, door, rounds[1..]))
  }

  function Stuck(n: nat): seq<Round> {
    seq(n, _ => Round(FULL_TRUST, map[], true, Closed, NO_EXIT))
  }

  /** The bound is reached: a door told to open that goes on reading closed is held thirty times, then its reading is believed. */
  lemma {:induction false} StuckDoorIsHeldThirtyTimes(slot: Slot, door: GsxDoor, n: nat)
    requires slot.lastTarget == ToOpen && 0 <= slot.transit && slot.transit + n == TRANSIT_BOUND
    ensures AllInTransit(slot, door, Stuck(n))
    ensures var last := Played(slot, door, Stuck(n)); Play(last, door, Stuck(1)[0]).outcome == AlreadyThere
    decreases n
  {
    if n > 0 {
      assert Stuck(n)[1..] == Stuck(n - 1);
      StuckDoorIsHeldThirtyTimes(Play(slot, door, Stuck(n)[0]).slot, door, n - 1);
    }
  }

  // ----- Trust in the vehicles, against the history of their readings -----

  datatype Deed = Distrusted | Trusted | Inherited | LookedAt(vehicle: Vehicle)

  datatype Moment = Moment(deed: Deed, vehicles: map<Vehicle, real>)

  function TrustAfter(history: seq<Moment>): Trust {
    if history == [] then FULL_TRUST
    else
      var before, now := TrustAfter(history[..|history| - 1]), history[|history| - 1];
      match now.deed
      case Distrusted => Distrust(now.vehicles)
      case Trusted => FULL_TRUST
      case Inherited => Inherit(before, now.vehicles)
      case LookedAt(vehicle) => Look(before, now.vehicles, vehicle).0
  }

  /** Where the vehicles were last distrusted, unless they were trusted again since. */
  function DistrustedSince(history: seq<Moment>): (d: Option<nat>)
    ensures d.Some? ==> d.value < |history|
  {
    if history == [] then None
    else
      match history[|history| - 1].deed
      case Distrusted => Some(|history| - 1)
      case Trusted => None
      case _ => DistrustedSince(history[..|history| - 1])
  }

  /** The first value received of a vehicle from a position on. */
  function FirstFrom(history: seq<Moment>, d: nat, vehicle: Vehicle): Option<real> {
    if |history| <= d then None
    else
      var before, now := history[..|history| - 1], history[|history| - 1];
      match FirstFrom(before, d, vehicle)
      case Some(value) => Some(value)
      case None => if vehicle in now.vehicles then Some(now.vehicles[vehicle]) else None
  }

  /** A look at the vehicle after its first value arrived finds it showing something else. */
  predicate ChangesAt(history: seq<Moment>, d: nat, vehicle: Vehicle, m: nat) {
    && d < m < |history| && history[m].deed == LookedAt(vehicle)
    && match FirstFrom(history[..m], d, vehicle)
       case None => false
       case Some(first) => Shown(history[m].vehicles, vehicle) != first
  }

  predicate HasChanged(history: seq<Moment>, d: nat, vehicle: Vehicle) {
    exists m: nat | m < |history| :: ChangesAt(history, d, vehicle, m)
  }

  /** A vehicle's value is awaited until its first one arrives, and distrusted from then until a look finds another one. */
  predicate AgreesWithTheHistory(t: Trust, history: seq<Moment>, vehicle: Vehicle) {
    match DistrustedSince(history)
    case None => vehicle !in t.awaiting && vehicle !in t.inherited
    case Some(d) =>
      var first := FirstFrom(history, d, vehicle);
      && (vehicle in t.awaiting <==> first.None?)
      && (vehicle in t.inherited <==> first.Some? && !HasChanged(history, d, vehicle))
      && (vehicle in t.inherited ==> first == Some(t.inherited[vehicle]))
  }

  lemma ChangesOfOneMore(history: seq<Moment>, now: Moment, d: nat, vehicle: Vehicle)
    requires d < |history|
    ensures HasChanged(history + [now], d, vehicle)
            <==> HasChanged(history, d, vehicle) || ChangesAt(history + [now], d, vehicle, |history|)
  {
    var more := history + [now];
    forall m: nat | m < |history| ensures ChangesAt(more, d, vehicle, m) <==> ChangesAt(history, d, vehicle, m) {
      assert more[..m] == history[..m] && more[m] == history[m];
    }
    if HasChanged(history, d, vehicle) {
      var m: nat :| m < |history| && ChangesAt(history, d, vehicle, m);
      assert ChangesAt(more, d, vehicle, m);
    }
    if HasChanged(more, d, vehicle) {
      var m: nat :| m < |more| && ChangesAt(more, d, vehicle, m);
      assert m < |history| ==> ChangesAt(history, d, vehicle, m);
    }
  }

  lemma FirstOfOneMore(history: seq<Moment>, now: Moment, d: nat, vehicle: Vehicle)
    requires d <= |history|
    ensures FirstFrom(history + [now], d, vehicle)
            == match FirstFrom(history, d, vehicle)
               case Some(first) => Some(first)
               case None => if vehicle in now.vehicles then Some(now.vehicles[vehicle]) else None
  {
    assert (history + [now])[..|history|] == history;
  }

  lemma InheritingAgrees(t: Trust, history: seq<Moment>, now: Moment, vehicle: Vehicle)
    requires AgreesWithTheHistory(t, history, vehicle)
    requires now.deed.Inherited? || (now.deed.LookedAt? && now.deed.vehicle != vehicle)
    ensures AgreesWithTheHistory(Inherit(t, now.vehicles), history + [now], vehicle)
  {
    assert (history + [now])[..|history|] == history;
    var since := DistrustedSince(history);
    if since.Some? {
      FirstOfOneMore(history, now, since.value, vehicle);
      ChangesOfOneMore(history, now, since.value, vehicle);
      if FirstFrom(history, since.value, vehicle).None? {
        NothingChangesUnheard(history, since.value, vehicle);
      }
    }
  }

  /** No value changed before a first one arrived. */
  lemma {:induction false} NothingChangesUnheard(history: seq<Moment>, d: nat, vehicle: Vehicle)
    requires d < |history| && FirstFrom(history, d, vehicle).None?
    ensures !HasChanged(history, d, vehicle)
  {
    var before, now := history[..|history| - 1], history[|history| - 1];
    assert history == before + [now];
    if d < |before| {
      NothingChangesUnheard(before, d, vehicle);
      ChangesOfOneMore(before, now, d, vehicle);
    }
  }

  lemma LookingAgrees(t: Trust, history: seq<Moment>, now: Moment)
    requires now.deed.LookedAt? && AgreesWithTheHistory(t, history, now.deed.vehicle)
    ensures AgreesWithTheHistory(Look(t, now.vehicles, now.deed.vehicle).0, history + [now], now.deed.vehicle)
  {
    var vehicle := now.deed.vehicle;
    var more := history + [now];
    assert more[..|history|] == history && more[|history|] == now;
    var since := DistrustedSince(history);
    if since.Some? {
      FirstOfOneMore(history, now, since.value, vehicle);
      ChangesOfOneMore(history, now, since.value, vehicle);
      if FirstFrom(history, since.value, vehicle).None? {
        NothingChangesUnheard(history, since.value, vehicle);
      }
    }
  }

  /** The trust is what the history of the readings says. */
  lemma {:induction false} TrustFollowsTheHistory(history: seq<Moment>, vehicle: Vehicle)
    ensures AgreesWithTheHistory(TrustAfter(history), history, vehicle)
  {
    if history != [] {
      var before, now := history[..|history| - 1], history[|history| - 1];
      assert history == before + [now];
      TrustFollowsTheHistory(before, vehicle);
      match now.deed {
        case Distrusted => DistrustingAgrees(before, now, vehicle);
        case Trusted =>
        case Inherited => InheritingAgrees(TrustAfter(before), before, now, vehicle);
        case LookedAt(looked) =>
          if looked == vehicle {
            LookingAgrees(TrustAfter(before), before, now);
          } else {
            InheritingAgrees(TrustAfter(before), before, now, vehicle);
            LookingElsewhere(TrustAfter(before), now, vehicle);
            SameTrustAgrees(Inherit(TrustAfter(before), now.vehicles), Look(TrustAfter(before), now.vehicles, looked).0, history, vehicle);
          }
      }
    }
  }

  lemma DistrustingAgrees(history: seq<Moment>, now: Moment, vehicle: Vehicle)
    requires now.deed.Distrusted?
    ensures AgreesWithTheHistory(Distrust(now.vehicles), history + [now], vehicle)
  {
    FirstOfOneMore(history, now, |history|, vehicle);
    assert vehicle in EVERY_VEHICLE;
  }

  predicate TrustedAlike(a: Trust, b: Trust, vehicle: Vehicle) {
    && (vehicle in a.awaiting <==> vehicle in b.awaiting)
    && (vehicle in a.inherited <==> vehicle in b.inherited)
    && (vehicle in a.inherited ==> a.inherited[vehicle] == b.inherited[vehicle])
  }

  lemma LookingElsewhere(t: Trust, now: Moment, vehicle: Vehicle)
    requires now.deed.LookedAt? && now.deed.vehicle != vehicle
    ensures TrustedAlike(Inherit(t, now.vehicles), Look(t, now.vehicles, now.deed.vehicle).0, vehicle)
  {
  }

  lemma SameTrustAgrees(a: Trust, b: Trust, history: seq<Moment>, vehicle: Vehicle)
    requires TrustedAlike(a, b, vehicle) && AgreesWithTheHistory(a, history, vehicle)
    ensures AgreesWithTheHistory(b, history, vehicle)
  {
  }

  /** The looks that asking the vehicles one after another takes. */
  function LooksOf(t: Trust, vehicles: map<Vehicle, real>, asked: seq<Vehicle>): seq<Moment>
    decreases |asked|
  {
    if asked == [] then []
    else
      var (looked, state) := Look(t, vehicles, asked[0]);
      [Moment(LookedAt(asked[0]), vehicles)] + if Serves(asked[0], state) then [] else LooksOf(looked, vehicles, asked[1..])
  }

  /** A vehicle counts when it is not distrusted, or was found changed from its first value since. */
  predicate IsNowTrusted(history: seq<Moment>, vehicle: Vehicle) {
    DistrustedSince(history).None? || HasChanged(history, DistrustedSince(history).value, vehicle)
  }

  predicate WantsItsDoorOpen(history: seq<Moment>, vehicles: map<Vehicle, real>, vehicle: Vehicle) {
    vehicle in vehicles && Serves(vehicle, vehicles[vehicle]) && IsNowTrusted(history, vehicle)
  }

  /** A look finds its vehicle serving exactly when it is received, serves, and is trusted by the history up to this look. */
  lemma ServingIsTrusted(history: seq<Moment>, vehicles: map<Vehicle, real>, vehicle: Vehicle)
    ensures Serves(vehicle, Look(TrustAfter(history), vehicles, vehicle).1)
            <==> WantsItsDoorOpen(history + [Moment(LookedAt(vehicle), vehicles)], vehicles, vehicle)
  {
    var more := history + [Moment(LookedAt(vehicle), vehicles)];
    assert more[..|history|] == history;
    assert !Serves(vehicle, Absent(vehicle));
    TrustFollowsTheHistory(more, vehicle);
    if DistrustedSince(more).Some? && vehicle in vehicles {
      FirstOfOneMore(history, more[|history|], DistrustedSince(more).value, vehicle);
    }
  }

  lemma LooksOfTheFirst(t: Trust, vehicles: map<Vehicle, real>, asked: seq<Vehicle>)
    requires asked != []
    ensures var (looked, state) := Look(t, vehicles, asked[0]);
            if Serves(asked[0], state) then
              AnyServes(t, vehicles, asked) == (looked, true) && LooksOf(t, vehicles, asked) == [Moment(LookedAt(asked[0]), vehicles)]
            else
              && AnyServes(t, vehicles, asked) == AnyServes(looked, vehicles, asked[1..])
              && LooksOf(t, vehicles, asked) == [Moment(LookedAt(asked[0]), vehicles)] + LooksOf(looked, vehicles, asked[1..])
  {
  }

  lemma Regroup(a: seq<Moment>, b: seq<Moment>, c: seq<Moment>)
    ensures a + (b + c) == a + b + c
  {
  }

  /** What asking the first vehicle leaves to do. */
  lemma AskingTheFirst(history: seq<Moment>, vehicles: map<Vehicle, real>, asked: seq<Vehicle>)
    requires asked != []
    ensures var now := Moment(LookedAt(asked[0]), vehicles);
            var (looked, state) := Look(TrustAfter(history), vehicles, asked[0]);
            && TrustAfter(history + [now]) == looked
            && if Serves(asked[0], state) then
                 && AnyServes(TrustAfter(history), vehicles, asked) == (looked, true)
                 && history + LooksOf(TrustAfter(history), vehicles, asked) == history + [now]
               else
                 && AnyServes(TrustAfter(history), vehicles, asked) == AnyServes(looked, vehicles, asked[1..])
                 && history + LooksOf(TrustAfter(history), vehicles, asked) == history + [now] + LooksOf(looked, vehicles, asked[1..])
  {
    var t, now := TrustAfter(history), Moment(LookedAt(asked[0]), vehicles);
    OneMomentFollows(history, now);
    LooksOfTheFirst(t, vehicles, asked);
    Regroup(history, [now], LooksOf(Look(t, vehicles, asked[0]).0, vehicles, asked[1..]));
  }

  predicate SomeWantsItsDoorOpen(history: seq<Moment>, vehicles: map<Vehicle, real>, asked: seq<Vehicle>) {
    exists v | v in asked :: WantsItsDoorOpen(history, vehicles, v)
  }

  lemma NobodyIsAsked(history: seq<Moment>, vehicles: map<Vehicle, real>)
    ensures AnyServes(TrustAfter(history), vehicles, []) == (TrustAfter(history), false)
    ensures history + LooksOf(TrustAfter(history), vehicles, []) == history
  {
  }

  predicate AreDistinct(asked: seq<Vehicle>) {
    forall i, j | 0 <= i < j < |asked| :: asked[i] != asked[j]
  }

  lemma {:induction false} AskingFollowsTheHistory(history: seq<Moment>, vehicles: map<Vehicle, real>, asked: seq<Vehicle>)
    requires AreDistinct(asked)
    ensures var (t, serves) := AnyServes(TrustAfter(history), vehicles, asked);
            var after := history + LooksOf(TrustAfter(history), vehicles, asked);
            t == TrustAfter(after) && (serves <==> SomeWantsItsDoorOpen(after, vehicles, asked))
    ensures var after := history + LooksOf(TrustAfter(history), vehicles, asked);
            forall v | v !in asked :: IsNowTrusted(after, v) == IsNowTrusted(history, v)
    decreases |asked|
  {
    if asked == [] {
      NobodyIsAsked(history, vehicles);
    } else {
      var now := Moment(LookedAt(asked[0]), vehicles);
      AskingTheFirst(history, vehicles, asked);
      ServingIsTrusted(history, vehicles, asked[0]);
      forall v | v != asked[0] ensures IsNowTrusted(history + [now], v) == IsNowTrusted(history, v) {
        OtherTrustStays(history, now, v);
      }
      if Serves(asked[0], Look(TrustAfter(history), vehicles, asked[0]).1) {
        assert asked[0] in asked;
      } else {
        AskingFollowsTheHistory(history + [now], vehicles, asked[1..]);
        TheRestDecides(history + [now], history + [now] + LooksOf(TrustAfter(history + [now]), vehicles, asked[1..]), vehicles, asked);
      }
    }
  }

  lemma TheRestDecides(looked: seq<Moment>, after: seq<Moment>, vehicles: map<Vehicle, real>, asked: seq<Vehicle>)
    requires asked != [] && AreDistinct(asked) && !WantsItsDoorOpen(looked, vehicles, asked[0])
    requires forall v | v !in asked[1..] :: IsNowTrusted(after, v) == IsNowTrusted(looked, v)
    ensures SomeWantsItsDoorOpen(after, vehicles, asked) <==> SomeWantsItsDoorOpen(after, vehicles, asked[1..])
  {
    assert asked == [asked[0]] + asked[1..] && asked[0] !in asked[1..];
  }

  lemma OtherTrustStays(history: seq<Moment>, now: Moment, vehicle: Vehicle)
    requires now.deed.LookedAt? && now.deed.vehicle != vehicle
    ensures IsNowTrusted(history + [now], vehicle) == IsNowTrusted(history, vehicle)
  {
    assert (history + [now])[..|history|] == history;
    var since := DistrustedSince(history);
    if since.Some? {
      ChangesOfOneMore(history, now, since.value, vehicle);
    }
  }

  // ----- Runs -----

  datatype Event =
    | Observed(readings: Readings)
    | Asked(vehicle: Vehicle, vehicles: map<Vehicle, real>)
    | DoorsSynced(readings: Readings, positions: Positions)
    | DoorsClosed(positions: Positions)
    | ExitWatched(door: GsxDoor, index: int)
    | HeldForDeparture(hold: bool)
    | HeldForPassengers(hold: bool)
    | Restored(memory: Entries, gsxRestarted: bool, vehicles: map<Vehicle, real>)

  function Take(s: DoorSync, e: Event): DoorSync
    requires |s.slots| == DOOR_COUNT
  {
    match e
    case Observed(readings) => Observe(s, readings)
    case Asked(vehicle, vehicles) => s.(trust := Look(s.trust, vehicles, vehicle).0)
    case DoorsSynced(readings, positions) => Sync(s, readings, positions)
    case DoorsClosed(positions) => CloseAll(s, positions)
    case ExitWatched(door, index) => WatchExit(s, door, index)
    case HeldForDeparture(hold) => HoldClosedForDeparture(s, hold)
    case HeldForPassengers(hold) => s.(passengerDoorsHeld := hold)
    case Restored(memory, gsxRestarted, vehicles) => RestoreMemory(s, memory, gsxRestarted, vehicles)
  }

  function Run(events: seq<Event>): (s: DoorSync)
    ensures |s.slots| == DOOR_COUNT
  {
    if events == [] then NEW_SYNC else Take(Run(events[..|events| - 1]), events[|events| - 1])
  }

  lemma EventKeepsValid(s: DoorSync, e: Event)
    requires s.Valid()
    ensures Take(s, e).Valid()
  {
    match e {
      case DoorsSynced(readings, positions) =>
        forall i | 0 <= i < DOOR_COUNT ensures NO_TRANSIT <= Take(s, e).slots[i].transit <= TRANSIT_BOUND {
          if readings.started {
            EveryDoorAgreesOrIsHeld(s, readings, positions, i);
          }
        }
      case _ =>
    }
  }

  /** In every run each of the seven doors has at most the bound of a transit behind it. */
  lemma {:induction false} EveryRunIsValid(events: seq<Event>)
    ensures Run(events).Valid()
  {
    if events != [] {
      EveryRunIsValid(events[..|events| - 1]);
      EventKeepsValid(Run(events[..|events| - 1]), events[|events| - 1]);
    }
  }

  // ----- A transit in a run -----

  /** The event commands the i-th door. */
  predicate Commands(s: DoorSync, e: Event, i: nat)
    requires i < DOOR_COUNT == |s.slots|
  {
    match e
    case DoorsSynced(readings, positions) => readings.started && SyncedAt(s, readings.vehicles, positions, i).outcome.Written?
    case DoorsClosed(positions) => !IsClosedAlready(s.slots[i], positions[i])
    case _ => false
  }

  predicate IsAPass(e: Event) {
    e.DoorsSynced? && e.readings.started
  }

  function PassesAfter(s: DoorSync, e: Event, i: nat, passes: Option<nat>): Option<nat>
    requires i < DOOR_COUNT == |s.slots|
  {
    if Commands(s, e, i) then Some(0)
    else if e.Restored? then None
    else if passes.Some? && IsAPass(e) then Some(passes.value + 1)
    else passes
  }

  /** How many passes there were since the i-th door was last commanded; none when it was not since the last restore. */
  function PassesSinceTheCommand(events: seq<Event>, i: nat): Option<nat>
    requires i < DOOR_COUNT
  {
    if events == [] then None
    else
      var before := events[..|events| - 1];
      PassesAfter(Run(before), events[|events| - 1], i, PassesSinceTheCommand(before, i))
  }

  lemma TransitAfterAPass(slot: Slot, t: Trust, vehicles: map<Vehicle, real>, door: GsxDoor, held: bool, position: DoorPosition)
    ensures var r := SyncDoor(slot, t, vehicles, door, held, position);
            && (if r.outcome.Written? then r.slot.transit == 0
                else r.slot.transit == NO_TRANSIT || (slot.transit != NO_TRANSIT && r.slot.transit == slot.transit + 1))
            && (r.outcome == InTransit ==> slot.transit != NO_TRANSIT && slot.transit + 1 <= TRANSIT_BOUND)
  {
  }

  lemma TransitAfterAnEvent(s: DoorSync, e: Event, i: nat)
    requires s.Valid() && i < DOOR_COUNT
    ensures var before, after := s.slots[i].transit, Take(s, e).slots[i].transit;
            if Commands(s, e, i) then after == 0
            else if e.Restored? then after == NO_TRANSIT
            else if IsAPass(e) then after == NO_TRANSIT || (before != NO_TRANSIT && after == before + 1)
            else after == before
  {
    if IsAPass(e) {
      SlotAfterSync(s, e.readings, e.positions, i);
      TransitAfterAPass(s.slots[i], TrustBefore(s, e.readings.vehicles, e.positions, i), e.readings.vehicles, ALL_DOORS[i],
                        s.IsHeldClosed(ALL_DOORS[i]), e.positions[i]);
    }
  }

  predicate TransitFits(transit: int, passes: Option<nat>) {
    transit == NO_TRANSIT || (passes.Some? && transit == passes.value)
  }

  lemma TransitStillFits(s: DoorSync, e: Event, i: nat, passes: Option<nat>)
    requires s.Valid() && i < DOOR_COUNT && TransitFits(s.slots[i].transit, passes)
    ensures TransitFits(Take(s, e).slots[i].transit, PassesAfter(s, e, i, passes))
  {
    TransitAfterAnEvent(s, e, i);
  }

  /** In every run the ticks of a transit are the passes since the command it began with. */
  lemma {:induction false} TransitOfEveryRun(events: seq<Event>, i: nat)
    requires i < DOOR_COUNT
    ensures TransitFits(Run(events).slots[i].transit, PassesSinceTheCommand(events, i))
  {
    if events != [] {
      var before := events[..|events| - 1];
      TransitOfEveryRun(before, i);
      EveryRunIsValid(before);
      TransitStillFits(Run(before), events[|events| - 1], i, PassesSinceTheCommand(before, i));
    }
  }

  /**
    In every run a pass holds a door for a transit only when the door was commanded since the last restore, by a pass or
    by closing all, and fewer than thirty passes lie in between: at most thirty passes hold it, whatever else happens.
  */
  lemma TransitHoldsInEveryRun(events: seq<Event>, readings: Readings, positions: Positions, i: nat)
    requires readings.started && i < DOOR_COUNT
    requires SyncedAt(Run(events), readings.vehicles, positions, i).outcome == InTransit
    ensures PassesSinceTheCommand(events, i).Some? && PassesSinceTheCommand(events, i).value < TRANSIT_BOUND
  {
    var s := Run(events);
    TransitOfEveryRun(events, i);
    EveryRunIsValid(events);
    TransitAfterAPass(s.slots[i], TrustBefore(s, readings.vehicles, positions, i), readings.vehicles, ALL_DOORS[i],
                      s.IsHeldClosed(ALL_DOORS[i]), positions[i]);
  }

  // ----- The looks of a run -----

  /** The looks that a door takes: none while it is held closed. */
  function LooksFor(t: Trust, vehicles: map<Vehicle, real>, door: GsxDoor, held: bool): seq<Moment> {
    if held then [] else LooksOf(t, vehicles, DrivingVehicles(door))
  }

  function LooksOfDoor(s: DoorSync, vehicles: map<Vehicle, real>, positions: seq<DoorPosition>, i: nat): seq<Moment>
    requires i < DOOR_COUNT == |s.slots| == |positions|
  {
    LooksFor(TrustBefore(s, vehicles, positions, i), vehicles, ALL_DOORS[i], s.IsHeldClosed(ALL_DOORS[i]))
  }

  function LooksOfPass(s: DoorSync, vehicles: map<Vehicle, real>, positions: seq<DoorPosition>, n: nat): seq<Moment>
    requires n <= DOOR_COUNT == |s.slots| == |positions|
  {
    if n == 0 then [] else LooksOfPass(s, vehicles, positions, n - 1) + LooksOfDoor(s, vehicles, positions, n - 1)
  }

  function MomentsOf(s: DoorSync, e: Event): seq<Moment>
    requires |s.slots| == DOOR_COUNT
  {
    match e
    case Observed(readings) =>
      if !readings.started then []
      else (if s.restarting then [Moment(Distrusted, readings.vehicles)] else []) + [Moment(Inherited, readings.vehicles)]
    case Asked(vehicle, vehicles) => [Moment(LookedAt(vehicle), vehicles)]
    case DoorsSynced(readings, positions) => if readings.started then LooksOfPass(s, readings.vehicles, positions, DOOR_COUNT) else []
    case Restored(_, gsxRestarted, vehicles) => [Moment(if gsxRestarted then Distrusted else Trusted, vehicles)]
    case _ => []
  }

  /** Every reading of the vehicles in a run, and what it was for. */
  function History(events: seq<Event>): seq<Moment> {
    if events == [] then []
    else History(events[..|events| - 1]) + MomentsOf(Run(events[..|events| - 1]), events[|events| - 1])
  }

  lemma DoorFollowsTheHistory(so: seq<Moment>, vehicles: map<Vehicle, real>, door: GsxDoor, held: bool)
    ensures var (t, wantsOpen) := DesiredOpen(TrustAfter(so), vehicles, door, held);
            var after := so + LooksFor(TrustAfter(so), vehicles, door, held);
            t == TrustAfter(after) && (wantsOpen <==> !held && SomeWantsItsDoorOpen(after, vehicles, DrivingVehicles(door)))
  {
    if held {
      assert so + [] == so;
    } else {
      AskingFollowsTheHistory(so, vehicles, DrivingVehicles(door));
    }
  }

  lemma OneDoorInAPass(s: DoorSync, vehicles: map<Vehicle, real>, positions: Positions, i: nat)
    requires i < DOOR_COUNT == |s.slots|
    ensures (TrustBefore(s, vehicles, positions, i + 1), SyncedAt(s, vehicles, positions, i).wantsOpen)
            == DesiredOpen(TrustBefore(s, vehicles, positions, i), vehicles, ALL_DOORS[i], s.IsHeldClosed(ALL_DOORS[i]))
  {
  }

  lemma NextDoorFollows(s: DoorSync, vehicles: map<Vehicle, real>, positions: Positions, i: nat, so: seq<Moment>)
    requires i < DOOR_COUNT == |s.slots| && TrustBefore(s, vehicles, positions, i) == TrustAfter(so)
    ensures TrustBefore(s, vehicles, positions, i + 1) == TrustAfter(so + LooksOfDoor(s, vehicles, positions, i))
  {
    OneDoorInAPass(s, vehicles, positions, i);
    DoorFollowsTheHistory(so, vehicles, ALL_DOORS[i], s.IsHeldClosed(ALL_DOORS[i]));
  }

  lemma {:induction false} PassFollowsTheHistory(s: DoorSync, history: seq<Moment>, vehicles: map<Vehicle, real>, positions: Positions, n: nat)
    requires n <= DOOR_COUNT == |s.slots| && s.trust == TrustAfter(history)
    ensures TrustBefore(s, vehicles, positions, n) == TrustAfter(history + LooksOfPass(s, vehicles, positions, n))
  {
    if n == 0 {
      NoDoorFollows(s, history, vehicles, positions);
    } else {
      PassFollowsTheHistory(s, history, vehicles, positions, n - 1);
      OneMoreDoor(s, history, vehicles, positions, n - 1);
      NextDoorFollows(s, vehicles, positions, n - 1, history + LooksOfPass(s, vehicles, positions, n - 1));
    }
  }

  lemma NoDoorFollows(s: DoorSync, history: seq<Moment>, vehicles: map<Vehicle, real>, positions: Positions)
    requires |s.slots| == DOOR_COUNT
    ensures TrustBefore(s, vehicles, positions, 0) == s.trust && history + LooksOfPass(s, vehicles, positions, 0) == history
  {
  }

  lemma OneMoreDoor(s: DoorSync, history: seq<Moment>, vehicles: map<Vehicle, real>, positions: Positions, i: nat)
    requires i < DOOR_COUNT == |s.slots|
    ensures history + LooksOfPass(s, vehicles, positions, i + 1)
            == history + LooksOfPass(s, vehicles, positions, i) + LooksOfDoor(s, vehicles, positions, i)
  {
  }

  lemma OneMomentFollows(history: seq<Moment>, now: Moment)
    ensures TrustAfter(history + [now])
            == match now.deed
               case Distrusted => Distrust(now.vehicles)
               case Trusted => FULL_TRUST
               case Inherited => Inherit(TrustAfter(history), now.vehicles)
               case LookedAt(vehicle) => Look(TrustAfter(history), now.vehicles, vehicle).0
  {
    assert (history + [now])[..|history|] == history;
  }

  lemma SyncFollowsTheHistory(s: DoorSync, history: seq<Moment>, readings: Readings, positions: Positions)
    requires |s.slots| == DOOR_COUNT && s.trust == TrustAfter(history)
    ensures Sync(s, readings, positions).trust == TrustAfter(history + MomentsOf(s, DoorsSynced(readings, positions)))
  {
    if readings.started {
      PassFollowsTheHistory(s, history, readings.vehicles, positions, DOOR_COUNT);
    } else {
      assert history + [] == history;
    }
  }

  lemma EventFollowsTheHistory(s: DoorSync, history: seq<Moment>, e: Event)
    requires |s.slots| == DOOR_COUNT && s.trust == TrustAfter(history)
    ensures Take(s, e).trust == TrustAfter(history + MomentsOf(s, e))
  {
    match e {
      case Observed(readings) =>
        if readings.started {
          ObservingFollowsTheHistory(s, history, readings);
        } else {
          assert history + [] == history;
        }
      case Asked(vehicle, vehicles) => OneMomentFollows(history, Moment(LookedAt(vehicle), vehicles));
      case DoorsSynced(readings, positions) => SyncFollowsTheHistory(s, history, readings, positions);
      case Restored(_, gsxRestarted, vehicles) =>
        OneMomentFollows(history, Moment(if gsxRestarted then Distrusted else Trusted, vehicles));
      case _ => assert history + [] == history;
    }
  }

  /** In every run the distrusted values are what the history of all looks at the vehicles says. */
  lemma {:induction false} TrustOfEveryRun(events: seq<Event>)
    ensures Run(events).trust == TrustAfter(History(events))
  {
    if events != [] {
      var before, e := events[..|events| - 1], events[|events| - 1];
      TrustOfEveryRun(before);
      EventFollowsTheHistory(Run(before), History(before), e);
    }
  }

  lemma ObservingFollowsTheHistory(s: DoorSync, history: seq<Moment>, readings: Readings)
    requires readings.started && s.trust == TrustAfter(history)
    requires |s.slots| == DOOR_COUNT
    ensures Observe(s, readings).trust == TrustAfter(history + MomentsOf(s, Observed(readings)))
  {
    var inherited := Moment(Inherited, readings.vehicles);
    if s.restarting {
      var distrusted := history + [Moment(Distrusted, readings.vehicles)];
      assert distrusted[..|history|] == history;
      assert history + MomentsOf(s, Observed(readings)) == distrusted + [inherited];
      assert (distrusted + [inherited])[..|distrusted|] == distrusted;
    } else {
      assert history + MomentsOf(s, Observed(readings)) == history + [inherited];
      assert (history + [inherited])[..|history|] == history;
    }
  }

  /**
    In every run a pass wants a door open exactly when it is not held closed and one of its vehicles was received,
    serves the door and counts: GSX did not restart, or since the restart a look found the vehicle changed from the
    first value received.  Only then is a door opened.
  */
  lemma DoorsOpenForTrustedVehicles(events: seq<Event>, readings: Readings, positions: Positions, i: nat)
    requires readings.started && i < DOOR_COUNT
    ensures var s := Run(events);
            var door, r := ALL_DOORS[i], SyncedAt(s, readings.vehicles, positions, i);
            var history := History(events) + LooksOfPass(s, readings.vehicles, positions, i + 1);
            && (r.wantsOpen
                <==> !s.IsHeldClosed(door) && SomeWantsItsDoorOpen(history, readings.vehicles, DrivingVehicles(door)))
            && (r.outcome == Written(true) ==> r.wantsOpen)
  {
    var s, history := Run(events), History(events);
    TrustOfEveryRun(events);
    PassFollowsTheHistory(s, history, readings.vehicles, positions, i);
    OneMoreDoor(s, history, readings.vehicles, positions, i);
    if SyncedAt(s, readings.vehicles, positions, i).outcome == Written(true) {
      OpeningIsWanted(s, readings.vehicles, positions, i);
    }
    OneDoorInAPass(s, readings.vehicles, positions, i);
    DoorFollowsTheHistory(history + LooksOfPass(s, readings.vehicles, positions, i), readings.vehicles, ALL_DOORS[i], s.IsHeldClosed(ALL_DOORS[i]));
  }

  lemma OpeningIsWanted(s: DoorSync, vehicles: map<Vehicle, real>, positions: Positions, i: nat)
    requires i < DOOR_COUNT == |s.slots| && SyncedAt(s, vehicles, positions, i).outcome == Written(true)
    ensures SyncedAt(s, vehicles, positions, i).wantsOpen
  {
  }

  /** GSX was seen up in a run, and whether it was down at the last look although it had been up. */
  predicate SeenUp(events: seq<Event>) {
    exists k :: 0 <= k < |events| && events[k].Observed? && events[k].readings.started
  }

  predicate IsDownAgain(events: seq<Event>) {
    exists k :: 0 <= k < |events| && events[k].Observed? && !events[k].readings.started && SeenUp(events[..k])
                && forall m | k < m < |events| :: !events[m].Observed?
  }

  /** Distrust begins at the first look that finds GSX up again after it was up and then down. */
  lemma {:induction false} RestartsAreSeen(events: seq<Event>)
    ensures Run(events).seenStarted <==> SeenUp(events)
    ensures Run(events).restarting <==> IsDownAgain(events)
  {
    if events != [] {
      var n := |events| - 1;
      var before := events[..n];
      RestartsAreSeen(before);
      SeenUpOfOneMore(before, events[n]);
      DownAgainOfOneMore(before, events[n]);
      assert events == before + [events[n]];
    }
  }

  lemma SeenUpOfOneMore(events: seq<Event>, e: Event)
    ensures SeenUp(events + [e]) <==> SeenUp(events) || (e.Observed? && e.readings.started)
  {
    var more := events + [e];
    if SeenUp(events) {
      var k :| 0 <= k < |events| && events[k].Observed? && events[k].readings.started;
      assert more[k] == events[k];
    }
    if e.Observed? && e.readings.started {
      assert more[|events|] == e;
    }
    if SeenUp(more) {
      var k :| 0 <= k < |more| && more[k].Observed? && more[k].readings.started;
      assert k < |events| ==> events[k] == more[k];
    }
  }

  lemma DownAgainOfOneMore(events: seq<Event>, e: Event)
    ensures IsDownAgain(events + [e]) <==> if e.Observed? then !e.readings.started && SeenUp(events) else IsDownAgain(events)
  {
    var more := events + [e];
    assert more[..|events|] == events && more[|events|] == e;
    if e.Observed? {
      if !e.readings.started && SeenUp(events) {
        assert IsDownAgain(more);
      }
    } else {
      if IsDownAgain(events) {
        var k :| 0 <= k < |events| && events[k].Observed? && !events[k].readings.started && SeenUp(events[..k])
                 && forall m | k < m < |events| :: !events[m].Observed?;
        assert more[k] == events[k] && more[..k] == events[..k];
        assert forall m | k < m < |events| :: more[m] == events[m];
      }
      if IsDownAgain(more) {
        var k :| 0 <= k < |more| && more[k].Observed? && !more[k].readings.started && SeenUp(more[..k])
                 && forall m | k < m < |more| :: !more[m].Observed?;
        assert k < |events| && events[k] == more[k] && more[..k] == events[..k];
        assert forall m | k < m < |events| :: more[m] == events[m];
      }
    }
  }

  // ----- Saving and restoring -----

  lemma MemoryNamesAreDistinct(a: GsxDoor, b: GsxDoor)
    requires MemoryName(a) == MemoryName(b)
    ensures a == b
  {
    assert MemoryName(a)[|MEMORY_PREFIX|..] == DoorName(a);
    assert MemoryName(b)[|MEMORY_PREFIX|..] == DoorName(b);
  }

  lemma {:induction false} AppendedTarget(memory: Entries, slots: seq<Slot>, n: nat, i: nat)
    requires i < DOOR_COUNT && n <= DOOR_COUNT == |slots|
    requires Find(memory, MemoryName(ALL_DOORS[i])) == None
    ensures TargetFromText(Text(AppendMemory(memory, slots, n), MemoryName(ALL_DOORS[i]), ""))
            == if i < n then slots[i].lastTarget else Unknown
    ensures i >= n ==> Find(AppendMemory(memory, slots, n), MemoryName(ALL_DOORS[i])) == None
  {
    if n > 0 {
      AppendedTarget(memory, slots, n - 1, i);
      DoorsAreDistinct(n - 1, i);
      OneMoreTarget(AppendMemory(memory, slots, n - 1), ALL_DOORS[n - 1], slots[n - 1].lastTarget, ALL_DOORS[i]);
    }
  }

  lemma DoorsAreDistinct(a: nat, b: nat)
    requires a < DOOR_COUNT && b < DOOR_COUNT
    ensures ALL_DOORS[a] == ALL_DOORS[b] <==> a == b
  {
  }

  lemma OneMoreTarget(memory: Entries, door: GsxDoor, target: Target, other: GsxDoor)
    requires other == door ==> Find(memory, MemoryName(door)) == None
    ensures var after := AppendTarget(memory, door, target);
            && (other == door ==> TargetFromText(Text(after, MemoryName(door), "")) == target)
            && (other != door ==> Find(after, MemoryName(other)) == Find(memory, MemoryName(other)))
  {
    FindAfterPut(memory, MemoryName(door), TargetText(target), MemoryName(other));
    if MemoryName(other) == MemoryName(door) {
      MemoryNamesAreDistinct(other, door);
    }
  }

  /**
    Restoring what was saved gives every door its target back.  An open target waits for its vehicles before it
    may be closed, no command is on its way, and the vehicles are distrusted exactly when GSX restarted.
  */
  lemma DoorRoundTrip(s: DoorSync, other: DoorSync, memory: Entries, gsxRestarted: bool, vehicles: map<Vehicle, real>)
    requires |s.slots| == |other.slots| == DOOR_COUNT
    requires forall i | 0 <= i < DOOR_COUNT :: Find(memory, MemoryName(ALL_DOORS[i])) == None
    ensures var restored := RestoreMemory(other, AppendMemory(memory, s.slots, DOOR_COUNT), gsxRestarted, vehicles);
            && restored.Valid()
            && (forall i | 0 <= i < DOOR_COUNT ::
                  restored.slots[i] == Slot(s.slots[i].lastTarget, s.slots[i].lastTarget == ToOpen, NO_TRANSIT, other.slots[i].exit))
            && restored.trust == (if gsxRestarted then Distrust(vehicles) else FULL_TRUST)
  {
    forall i | 0 <= i < DOOR_COUNT
      ensures TargetFromText(Text(AppendMemory(memory, s.slots, DOOR_COUNT), MemoryName(ALL_DOORS[i]), "")) == s.slots[i].lastTarget
    {
      AppendedTarget(memory, s.slots, DOOR_COUNT, i);
    }
  }
}
