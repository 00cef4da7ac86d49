/**
  The state that GSX publishes, and the reducer that folds snapshots and patches into it
  (`GsxRemoteState.h`, `GsxRemoteStateReducer.cpp`).

  The specification sees the state as independent parts, one per published key.  `Meaning` says what a
  value published under a key stands for, whatever the state was; `Put` and `Get` write and read a part.
*/
module GsxRemote {
  import opened Options
  import opened Json
  import opened Texts

  // The states of a service, as GSX numbers them.
  const STATUS_UNAVAILABLE := 0
  const STATUS_CALLABLE := 1
  const STATUS_NOT_CHOSEN := 2
  const STATUS_BYPASSED := 3
  const STATUS_REQUESTED := 4
  const STATUS_ACTIVE := 5
  const STATUS_COMPLETED := 6
  const STATUS_COMPLETING := 7

  datatype RemoteService = RemoteService(id: string, stateRaw: int, canTrigger: bool)

  datatype RemoteMenu = RemoteMenu(title: string, entries: seq<string>, disabled: seq<bool>, shown: bool)

  datatype Remote = Remote(
    connected: bool,
    synced: bool,
    simbriefStatus: string,
    simbriefError: string,
    simbriefGeneration: int,
    handlingOperator: string,
    matchedAircraftTitle: string,
    couatlId: string,
    airportIcao: string,
    parkingName: string,
    apronVerdict: seq<string>,
    menu: RemoteMenu,
    services: seq<RemoteService>,
    messagesShown: nat,
    lastMessage: string,
    loadedProfileSource: string,
    loadedProfileRefueling: Option<bool>)

  const FRESH := Remote(false, false, "", "", 0, "", "", "", "", "", [], RemoteMenu("", [], [], false), [], 0, "", "", None)

  /** The first service with the identifier, as `FindService` looks it up. */
  function FindService(services: seq<RemoteService>, id: string): Option<RemoteService> {
    if services == [] then None
    else if services[0].id == id then Some(services[0])
    else FindService(services[1..], id)
  }

  datatype StateKey =
    | Services | Menu | MenuShown | Simbrief | Operators | GateProperties
    | Aircraft | Startup | Airport | Parking | HandlerData

  /** The name a key is published under. */
  function NameOf(key: StateKey): string {
    match key
    case Services => "services"
    case Menu => "menu"
    case MenuShown => "menuShown"
    case Simbrief => "simbrief"
    case Operators => "operators"
    case GateProperties => "gateProperties"
    case Aircraft => "aircraft"
    case Startup => "startup"
    case Airport => "airport"
    case Parking => "parking"
    case HandlerData => "handlerData"
  }

  /** The published keys, in the order in which a snapshot applies them. */
  const STATE_FIELDS: seq<StateKey> := [
    Services, Menu, MenuShown, Simbrief, Operators, GateProperties, Aircraft, Startup, Airport, Parking, HandlerData
  ]

  const MESSAGE_PATH := "/message"
  const DISCARDED_PATHS: seq<string> := ["/billing", "/state", "/stateText"]

  datatype PatchOutcome = Applied | Discarded | Unknown

  datatype Part =
    | ServicesPart(services: seq<RemoteService>)
    | MenuPart(title: string, entries: seq<string>, disabled: seq<bool>)
    | ShownPart(shown: bool)
    | SimbriefPart(status: string, error: string, generation: int)
    | OperatorPart(handling: string)
    | ApronPart(verdict: seq<string>)
    | AircraftPart(aircraftTitle: string)
    | CouatlPart(sid: string)
    | AirportPart(icao: string)
    | ParkingPart(parking: string)
    | ProfilePart(source: string, refueling: Option<bool>)

  function KeyOf(part: Part): StateKey {
    match part
    case ServicesPart(_) => Services
    case MenuPart(_, _, _) => Menu
    case ShownPart(_) => MenuShown
    case SimbriefPart(_, _, _) => Simbrief
    case OperatorPart(_) => Operators
    case ApronPart(_) => GateProperties
    case AircraftPart(_) => Aircraft
    case CouatlPart(_) => Startup
    case AirportPart(_) => Airport
    case ParkingPart(_) => Parking
    case ProfilePart(_, _) => HandlerData
  }

  function Get(remote: Remote, key: StateKey): (part: Part)
    ensures KeyOf(part) == key
  {
    match key
    case Services => ServicesPart(remote.services)
    case Menu => MenuPart(remote.menu.title, remote.menu.entries, remote.menu.disabled)
    case MenuShown => ShownPart(remote.menu.shown)
    case Simbrief => SimbriefPart(remote.simbriefStatus, remote.simbriefError, remote.simbriefGeneration)
    case Operators => OperatorPart(remote.handlingOperator)
    case GateProperties => ApronPart(remote.apronVerdict)
    case Aircraft => AircraftPart(remote.matchedAircraftTitle)
    case Startup => CouatlPart(remote.couatlId)
    case Airport => AirportPart(remote.airportIcao)
    case Parking => ParkingPart(remote.parkingName)
    case HandlerData => ProfilePart(remote.loadedProfileSource, remote.loadedProfileRefueling)
  }

  function Put(remote: Remote, part: Part): Remote {
    match part
    case ServicesPart(services) => remote.(services := services)
    case MenuPart(title, entries, disabled) =>
      remote.(menu := remote.menu.(title := title, entries := entries, disabled := disabled))
    case ShownPart(shown) => remote.(menu := remote.menu.(shown := shown))
    case SimbriefPart(status, error, generation) =>
      remote.(simbriefStatus := status, simbriefError := error, simbriefGeneration := generation)
    case OperatorPart(handling) => remote.(handlingOperator := handling)
    case ApronPart(verdict) => remote.(apronVerdict := verdict)
    case AircraftPart(title) => remote.(matchedAircraftTitle := title)
    case CouatlPart(sid) => remote.(couatlId := sid)
    case AirportPart(icao) => remote.(airportIcao := icao)
    case ParkingPart(parking) => remote.(parkingName := parking)
    case ProfilePart(source, refueling) =>
      remote.(loadedProfileSource := source, loadedProfileRefueling := refueling)
  }

  function ServiceOf(json: Json): RemoteService {
    RemoteService(TextOf(Member(json, "id")), IntOf(Member(json, "stateRaw")), FlagOf(Member(json, "canTrigger")))
  }

  /** The usable text of a session identifier: a whole number or a non-empty text. */
  function SidText(sid: Json): Option<string> {
    match sid
    case Num(x) => if IntegerOf(sid) as real == x then Some(IntegerText(IntegerOf(sid))) else None
    case Str(text) => if text == "" then None else Some(text)
    case _ => None
  }

  /** What a value published under a key stands for; only an unusable session identifier stands for nothing. */
  function Meaning(key: StateKey, value: Json): (part: Option<Part>)
    ensures part.Some? ==> KeyOf(part.value) == key
    ensures part.None? <==> key == Startup && SidText(Member(value, "sid")).None?
  {
    match key
    case Services => Some(ServicesPart(Each(ItemsOf(value), ServiceOf)))
    case Menu =>
      Some(MenuPart(TextOf(Member(value, "title")),
                    Each(ItemsOf(Member(value, "entries")), TextOf),
                    Each(ItemsOf(Member(value, "disabled")), FlagOf)))
    case MenuShown => Some(ShownPart(FlagOf(value)))
    case Simbrief =>
      Some(SimbriefPart(TextOf(Member(value, "status")), TextOf(Member(value, "error")), IntOf(Member(value, "gen"))))
    case Operators => Some(OperatorPart(TextOf(Member(value, "handling"))))
    case GateProperties => Some(ApronPart(Each(ItemsOf(value), TextOf)))
    case Aircraft => Some(AircraftPart(TextOf(value)))
    case Startup =>
      (match SidText(Member(value, "sid"))
       case Some(sid) => Some(CouatlPart(sid))
       case None => None)
    case Airport => Some(AirportPart(TextOf(Member(value, "icao"))))
    case Parking => Some(ParkingPart(TextOf(value)))
    case HandlerData =>
      var aircraft := Member(value, "aircraft");
      var refueling := Member(aircraft, "refueling");
      Some(ProfilePart(TextOf(Member(aircraft, "dataSourceUsed")), if refueling.Bool? then Some(refueling.flag) else None))
  }

  function Each<T>(items: seq<Json>, read: Json -> T): (values: seq<T>)
    ensures |values| == |items|
    ensures forall i | 0 <= i < |items| :: values[i] == read(items[i])
  {
    seq(|items|, i requires 0 <= i < |items| => read(items[i]))
  }

  function ApplyField(remote: Remote, key: StateKey, value: Json): Remote {
    match Meaning(key, value)
    case Some(part) => Put(remote, part)
    case None => remote
  }

  // ----- Patches -----

  function FieldNamed(fields: seq<StateKey>, name: string): Option<StateKey> {
    if fields == [] then None
    else if NameOf(fields[0]) == name then Some(fields[0])
    else FieldNamed(fields[1..], name)
  }

  /** The key a patch path names, if it names one. */
  function PatchedKey(path: string): Option<StateKey> {
    if path != "" && path[0] == '/' then FieldNamed(STATE_FIELDS, path[1..]) else None
  }

  /** The text of a message patch that the pilot gets to see. */
  function ShownMessage(value: Json): Option<string> {
    var text := TextOf(Member(value, "text"));
    if FlagOf(Member(value, "visible")) && text != "" then Some(text) else None
  }

  function ApplyMessage(remote: Remote, value: Json): Remote {
    match ShownMessage(value)
    case Some(text) => remote.(lastMessage := text, messagesShown := remote.messagesShown + 1)
    case None => remote
  }

  function ApplyPatch(remote: Remote, path: string, value: Json): (Remote, PatchOutcome) {
    match PatchedKey(path)
    case Some(key) => (ApplyField(remote, key, value), Applied)
    case None =>
      if path == MESSAGE_PATH then (ApplyMessage(remote, value), Applied)
      else if path in DISCARDED_PATHS then (remote, Discarded)
      else (remote, Unknown)
  }

  /** The fields of a snapshot object applied in the order of a table. */
  function ApplyFields(remote: Remote, fields: seq<StateKey>, snapshot: map<string, Json>): Remote
    decreases |fields|
  {
    if fields == [] then remote else ApplyFields(ApplyMember(remote, fields[0], snapshot), fields[1..], snapshot)
  }

  function ApplyMember(remote: Remote, key: StateKey, snapshot: map<string, Json>): Remote {
    if NameOf(key) in snapshot then ApplyField(remote, key, snapshot[NameOf(key)]) else remote
  }

  function ApplySnapshot(remote: Remote, snapshot: map<string, Json>): Remote {
    ApplyFields(remote, STATE_FIELDS, snapshot).(synced := true)
  }

  function ApplyConnection(remote: Remote, connected: bool): Remote {
    (if connected then FRESH else remote).(connected := connected)
  }

  // ----- The reducer, updating the published state in place -----

  /** The record that the reducer's functions take by reference. */
  class GsxRemoteState {
    var fields: Remote

    constructor ()
      ensures fields == FRESH
    {
      fields := FRESH;
    }

    method SetServices(value: Json)
      modifies this
      ensures fields == ApplyField(old(fields), Services, value)
    {
      var items := ItemsOf(value);
      fields := fields.(services := []);
      for i := 0 to |items|
        invariant fields == old(fields).(services := Each(items, ServiceOf)[..i])
      {
        fields := fields.(services := fields.services + [ServiceOf(items[i])]);
      }
    }

    method SetMenu(value: Json)
      modifies this
      ensures fields == ApplyField(old(fields), Menu, value)
    {
      var title := TextOf(Member(value, "title"));
      var entries := ItemsOf(Member(value, "entries"));
      var flags := ItemsOf(Member(value, "disabled"));
      var menu := fields.menu.(title := title, entries := []);
      for i := 0 to |entries|
        invariant menu == fields.menu.(title := title, entries := Each(entries, TextOf)[..i])
      {
        menu := menu.(entries := menu.entries + [TextOf(entries[i])]);
      }
      menu := menu.(disabled := []);
      for i := 0 to |flags|
        invariant menu == fields.menu.(title := title, entries := Each(entries, TextOf), disabled := Each(flags, FlagOf)[..i])
      {
        menu := menu.(disabled := menu.disabled + [FlagOf(flags[i])]);
      }
      fields := fields.(menu := menu);
    }

    method SetApronVerdict(value: Json)
      modifies this
      ensures fields == ApplyField(old(fields), GateProperties, value)
    {
      var items := ItemsOf(value);
      fields := fields.(apronVerdict := []);
      for i := 0 to |items|
        invariant fields == old(fields).(apronVerdict := Each(items, TextOf)[..i])
      {
        fields := fields.(apronVerdict := fields.apronVerdict + [TextOf(items[i])]);
      }
    }

    method SetLoadedProfile(value: Json)
      modifies this
      ensures fields == ApplyField(old(fields), HandlerData, value)
    {
      var aircraft := Member(value, "aircraft");
      var refueling := Member(aircraft, "refueling");
      fields := fields.(loadedProfileSource := TextOf(Member(aircraft, "dataSourceUsed")));
      fields := fields.(loadedProfileRefueling := if refueling.Bool? then Some(refueling.flag) else None);
    }

    method Apply(key: StateKey, value: Json)
      modifies this
      ensures fields == ApplyField(old(fields), key, value)
    {
      match key {
        case Services => SetServices(value);
        case Menu => SetMenu(value);
        case MenuShown => fields := fields.(menu := fields.menu.(shown := FlagOf(value)));
        case Simbrief =>
          fields := fields.(simbriefStatus := TextOf(Member(value, "status")),
                            simbriefError := TextOf(Member(value, "error")),
                            simbriefGeneration := IntOf(Member(value, "gen")));
        case Operators => fields := fields.(handlingOperator := TextOf(Member(value, "handling")));
        case GateProperties => SetApronVerdict(value);
        case Aircraft => fields := fields.(matchedAircraftTitle := TextOf(value));
        case Startup =>
          var sid := SidText(Member(value, "sid"));
          if sid.Some? {
            fields := fields.(couatlId := sid.value);
          }
        case Airport => fields := fields.(airportIcao := TextOf(Member(value, "icao")));
        case Parking => fields := fields.(parkingName := TextOf(value));
        case HandlerData => SetLoadedProfile(value);
      }
    }

    method ReduceSnapshot(snapshot: map<string, Json>)
      modifies this
      ensures fields == ApplySnapshot(old(fields), snapshot)
    {
      var table := STATE_FIELDS;
      for i := 0 to |table|
        invariant ApplyFields(fields, table[i..], snapshot) == ApplyFields(old(fields), STATE_FIELDS, snapshot)
      {
        if NameOf(table[i]) in snapshot {
          Apply(table[i], snapshot[NameOf(table[i])]);
        }
      }
      fields := fields.(synced := true);
    }

    method FindKey(path: string) returns (key: Option<StateKey>)
      ensures key == PatchedKey(path)
    {
      if path == "" || path[0] != '/' {
        return None;
      }
      var table := STATE_FIELDS;
      for i := 0 to |table|
        invariant FieldNamed(table[i..], path[1..]) == PatchedKey(path)
      {
        if NameOf(table[i]) == path[1..] {
          return Some(table[i]);
        }
      }
      return None;
    }

    method ShowMessage(value: Json)
      modifies this
      ensures fields == ApplyMessage(old(fields), value)
    {
      var text := TextOf(Member(value, "text"));
      if FlagOf(Member(value, "visible")) && text != "" {
        fields := fields.(lastMessage := text, messagesShown := fields.messagesShown + 1);
      }
    }

    method ReducePatch(path: string, value: Json) returns (outcome: PatchOutcome)
      modifies this
      ensures (fields, outcome) == ApplyPatch(old(fields), path, value)
    {
      var key := FindKey(path);
      match key {
        case Some(found) =>
          Apply(found, value);
          outcome := Applied;
        case None =>
          if path == MESSAGE_PATH {
            ShowMessage(value);
            outcome := Applied;
          } else {
            outcome := if path in DISCARDED_PATHS then Discarded else Unknown;
          }
      }
    }

    method ReduceConnection(connected: bool)
      modifies this
      ensures fields == ApplyConnection(old(fields), connected)
    {
      if connected {
        fields := FRESH;
      }
      fields := fields.(connected := connected);
    }
  }
}
