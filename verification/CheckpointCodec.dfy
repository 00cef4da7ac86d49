/**
  How a saved turnaround is written to JSON and read back (`JsonFileTurnaroundCheckpointStore.cpp`).  The text
  of the JSON, and of the numbers in it, is taken to be exact.
*/
module CheckpointCodec {
  import opened Options
  import opened Json
  import opened MemoryBags
  import P = TurnaroundPhases
  import opened TurnaroundDatas
  import opened TurnaroundDocuments

  // ----- Values -----

  predicate IsAbsent(json: Json) {
    json.Undefined? || json.Null?
  }

  function DecodeFlag(json: Json): Option<bool> {
    if json.Bool? then Some(json.flag) else None
  }

  function DecodeText(json: Json): Option<string> {
    if json.Str? then Some(json.text) else None
  }

  function DecodeAmount(json: Json): Option<real> {
    if json.Num? then Some(json.number) else None
  }

  /** A whole number that the target type can hold. */
  function DecodeWhole(json: Json, low: int, high: int): Option<int> {
    if !json.Num? then None
    else
      var whole := IntegerOf(json);
      if whole as real != json.number || !(low <= whole <= high) then None else Some(whole)
  }

  function DecodeInt(json: Json): Option<int> {
    DecodeWhole(json, INT32_LOWEST, INT32_HIGHEST)
  }

  function DecodeLong(json: Json): Option<int> {
    DecodeWhole(json, INT64_LOWEST, INT64_HIGHEST)
  }

  function DecodeOptionalAmount(json: Json): Option<Option<real>> {
    if json.Null? then Some(None)
    else
      match DecodeAmount(json)
      case Some(amount) => Some(Some(amount))
      case None => None
  }

  function IfPresent<T>(json: Json, initial: T, decoded: Option<T>): Option<T> {
    if json.Undefined? then Some(initial) else decoded
  }

  function EncodeOptionalAmount(amount: Option<real>): Json {
    match amount
    case Some(x) => Num(x)
    case None => Null
  }

  lemma WholeRoundTrip(n: int)
    ensures IsInt64(n) ==> DecodeLong(Num(n as real)) == Some(n)
    ensures IsInt32(n) ==> DecodeInt(Num(n as real)) == Some(n)
  {
    assert (n as real).Floor == n;
  }

  // ----- The raw fields -----

  function FlagNames(): set<string> {
    set flag: Flag | true :: NameOf(flag)
  }

  function FlagsToJson(flags: set<Flag>): map<string, Json> {
    map name | name in FlagNames() :: Bool(exists flag | flag in flags :: NameOf(flag) == name)
  }

  function PlannedToJson(raw: RawFields): map<string, Json> {
    map[
      "plannedFuelKg" := Num(raw.plannedFuelKg),
      "plannedZfwKg" := Num(raw.plannedZfwKg),
      "plannedPassengers" := Num(raw.plannedPassengers as real),
      "initialFuelKg" := Num(raw.initialFuelKg),
      "initialZfwKg" := Num(raw.initialZfwKg),
      "boardingCompletionAttempts" := Num(raw.boardingCompletionAttempts as real)
    ]
  }

  function MeasuredToJson(raw: RawFields): map<string, Json> {
    map[
      "omittedCrewKg" := Num(raw.omittedCrewKg),
      "operatingEmptyWithCrewKg" := Num(raw.operatingEmptyWithCrewKg),
      "fuelShortfallKg" := Num(raw.fuelShortfallKg),
      "settledFuelKg" := Num(raw.settledFuelKg),
      "cateringWaitIntervals" := Num(raw.cateringWaitIntervals as real),
      "cabinWaitIntervals" := Num(raw.cabinWaitIntervals as real)
    ]
  }

  function DataToJson(data: TurnaroundData): Json {
    Obj(FlagsToJson(data.raw.flags) + PlannedToJson(data.raw) + MeasuredToJson(data.raw))
  }

  function FlagAt(from: Json, flag: Flag): Option<bool> {
    var json := Member(from, NameOf(flag));
    IfPresent(json, false, DecodeFlag(json))
  }

  function AmountAt(from: Json, name: string): Option<real> {
    var json := Member(from, name);
    IfPresent(json, 0.0, DecodeAmount(json))
  }

  function CountAt(from: Json, name: string): Option<int> {
    var json := Member(from, name);
    IfPresent(json, 0, DecodeInt(json))
  }

  predicate FlagsCanBeRead(from: Json) {
    forall flag: Flag :: FlagAt(from, flag).Some?
  }

  function FlagsFromJson(from: Json): set<Flag> {
    set flag: Flag | FlagAt(from, flag) == Some(true)
  }

  function PlannedFromJson(from: Json): Option<RawFields> {
    match (AmountAt(from, "plannedFuelKg"), AmountAt(from, "plannedZfwKg"), CountAt(from, "plannedPassengers"),
           AmountAt(from, "initialFuelKg"), AmountAt(from, "initialZfwKg"), CountAt(from, "boardingCompletionAttempts"))
    case (Some(fuel), Some(zfw), Some(passengers), Some(initialFuel), Some(initialZfw), Some(attempts)) =>
      Some(NO_RAW.(plannedFuelKg := fuel, plannedZfwKg := zfw, plannedPassengers := passengers, initialFuelKg := initialFuel,
                   initialZfwKg := initialZfw, boardingCompletionAttempts := attempts))
    case _ => None
  }

  function MeasuredFromJson(from: Json, planned: RawFields): Option<RawFields> {
    match (AmountAt(from, "omittedCrewKg"), AmountAt(from, "operatingEmptyWithCrewKg"), AmountAt(from, "fuelShortfallKg"),
           AmountAt(from, "settledFuelKg"), CountAt(from, "cateringWaitIntervals"), CountAt(from, "cabinWaitIntervals"))
    case (Some(crew), Some(empty), Some(shortfall), Some(settled), Some(catering), Some(cabin)) =>
      Some(planned.(omittedCrewKg := crew, operatingEmptyWithCrewKg := empty, fuelShortfallKg := shortfall, settledFuelKg := settled,
                    cateringWaitIntervals := catering, cabinWaitIntervals := cabin))
    case _ => None
  }

  function FiguresFromJson(from: Json): Option<RawFields> {
    match PlannedFromJson(from)
    case Some(planned) => MeasuredFromJson(from, planned)
    case None => None
  }

  function DataFromJson(from: Json): Option<TurnaroundData> {
    match FiguresFromJson(from)
    case None => None
    case Some(figures) =>
      if FlagsCanBeRead(from) then Some(INITIAL.(raw := figures.(flags := FlagsFromJson(from)))) else None
  }

  predicate CountsFit(raw: RawFields) {
    && IsInt32(raw.plannedPassengers) && IsInt32(raw.boardingCompletionAttempts)
    && IsInt32(raw.cateringWaitIntervals) && IsInt32(raw.cabinWaitIntervals)
  }

  // ----- Memory -----

  function EntryToJson(entry: Entry): Json {
    Obj(map["name" := Str(entry.name), "value" := Str(entry.value)])
  }

  function BagToJson(bag: Entries): Json {
    Arr(seq(|bag|, i requires 0 <= i < |bag| => EntryToJson(bag[i])))
  }

  function EntryFromJson(json: Json): Option<Entry> {
    match (DecodeText(Member(json, "name")), DecodeText(Member(json, "value")))
    case (Some(name), Some(value)) => Some(Entry(name, value))
    case _ => None
  }

  /** The entries of a list of items, none when one of them is malformed. */
  function EntriesFromJson(items: seq<Json>): Option<Entries> {
    if items == [] then Some([])
    else
      match (EntriesFromJson(items[..|items| - 1]), EntryFromJson(items[|items| - 1]))
      case (Some(entries), Some(entry)) => Some(entries + [entry])
      case _ => None
  }

  function BagFromJson(json: Json): Option<Entries> {
    if IsAbsent(json) then Some([])
    else if json.Arr? then EntriesFromJson(json.items)
    else None
  }

  function MemoryToJson(memoryByOwner: map<string, Entries>): Json {
    Obj(map owner | owner in memoryByOwner :: BagToJson(memoryByOwner[owner]))
  }

  function MemoryFromJson(json: Json): Option<map<string, Entries>> {
    if IsAbsent(json) then Some(map[])
    else if !json.Obj? then None
    else if forall owner | owner in json.fields :: BagFromJson(json.fields[owner]).Some?
    then Some(map owner | owner in json.fields :: BagFromJson(json.fields[owner]).value)
    else None
  }

  // ----- Key, checkpoint and plan -----

  function KeyToJson(key: TurnaroundKey): Json {
    Obj(map[
      "couatlId" := Str(key.couatlId),
      "aircraftId" := Str(key.aircraftId),
      "aircraftTitle" := Str(key.aircraftTitle),
      "airportIcao" := Str(key.airportIcao),
      "parkingName" := Str(key.parkingName)
    ])
  }

  function KeyFromJson(json: Json): Option<TurnaroundKey> {
    match (DecodeText(Member(json, "couatlId")), DecodeText(Member(json, "aircraftId")), DecodeText(Member(json, "aircraftTitle")),
           DecodeText(Member(json, "airportIcao")), DecodeText(Member(json, "parkingName")))
    case (Some(couatl), Some(aircraft), Some(title), Some(airport), Some(parking)) =>
      Some(TurnaroundKey(couatl, aircraft, title, airport, parking))
    case _ => None
  }

  function CheckpointToJson(checkpoint: TurnaroundCheckpoint): Json {
    Obj(map[
      "phase" := Str(P.TextOf(checkpoint.phase)),
      "data" := DataToJson(checkpoint.data),
      "aircraftMemory" := BagToJson(checkpoint.aircraftMemory)
    ])
  }

  function ResumablePhaseFrom(json: Json): Option<P.Phase> {
    match DecodeText(json)
    case None => None
    case Some(text) =>
      match P.PhaseNamed(text, 0)
      case Some(phase) => if P.IsResumable(phase) then Some(phase) else None
      case None => None
  }

  /** None when malformed; absent is no checkpoint. */
  function CheckpointFromJson(json: Json): Option<Option<TurnaroundCheckpoint>> {
    if IsAbsent(json) then Some(None)
    else if !json.Obj? || !Member(json, "data").Obj? then None
    else
      match (ResumablePhaseFrom(Member(json, "phase")), DataFromJson(Member(json, "data")), BagFromJson(Member(json, "aircraftMemory")))
      case (Some(phase), Some(data), Some(memory)) => Some(Some(TurnaroundCheckpoint(phase, data, memory)))
      case _ => None
  }

  function PlanToJson(plan: FlightPlan): Json {
    Obj(map[
      "fuelKg" := Num(plan.fuelKg),
      "zfwKg" := Num(plan.zfwKg),
      "passengers" := Num(plan.passengers as real),
      "unit" := Num(plan.unit as real),
      "origin" := Str(plan.origin),
      "destination" := Str(plan.destination),
      "generatedEpoch" := Num(plan.generatedEpoch as real),
      "operatingEmptyKg" := Num(plan.operatingEmptyKg),
      "payloadKg" := EncodeOptionalAmount(plan.payloadKg),
      "cargoKg" := EncodeOptionalAmount(plan.cargoKg)
    ])
  }

  function TextAt(from: Json, name: string): Option<string> {
    var json := Member(from, name);
    IfPresent(json, "", DecodeText(json))
  }

  function LongAt(from: Json, name: string): Option<int> {
    var json := Member(from, name);
    IfPresent(json, 0, DecodeLong(json))
  }

  function OptionalAmountAt(from: Json, name: string): Option<Option<real>> {
    var json := Member(from, name);
    IfPresent(json, None, DecodeOptionalAmount(json))
  }

  function PlanFromObject(json: Json): Option<FlightPlan> {
    match (DecodeAmount(Member(json, "fuelKg")), DecodeAmount(Member(json, "zfwKg")), CountAt(json, "passengers"),
           CountAt(json, "unit"), TextAt(json, "origin"))
    case (Some(fuel), Some(zfw), Some(passengers), Some(unit), Some(origin)) =>
      (match (TextAt(json, "destination"), LongAt(json, "generatedEpoch"), AmountAt(json, "operatingEmptyKg"),
              OptionalAmountAt(json, "payloadKg"), OptionalAmountAt(json, "cargoKg"))
       case (Some(destination), Some(epoch), Some(empty), Some(payload), Some(cargo)) =>
         if IsKnownUnit(unit)
         then Some(FlightPlan(fuel, zfw, passengers, unit, origin, destination, epoch, empty, payload, cargo))
         else None
       case _ => None)
    case _ => None
  }

  function PlanFromJson(json: Json): Option<Option<FlightPlan>> {
    if IsAbsent(json) then Some(None)
    else if !json.Obj? then None
    else
      match PlanFromObject(json)
      case Some(plan) => Some(Some(plan))
      case None => None
  }

  // ----- Documents -----

  datatype Refusal =
    | Unreadable | TooLarge | NotAnObject | WrongVersion | WrongPhaseCount
    | BadKey | BadCheckpoint | BadPlan | BadMemory | BadMark

  datatype Reading = Accepted(document: TurnaroundDocument) | Refused(refusal: Refusal)

  /** The members of a document's object; the checkpoint and the plan are there only when the document has them. */
  function Assembled(clientVersion: string, key: Json, mark: Json, memory: Json, checkpoint: Option<Json>, plan: Option<Json>): map<string, Json> {
    map[
      "clientVersion" := Str(clientVersion),
      "phaseCount" := Num(P.PHASE_COUNT as real),
      "key" := key,
      "repositioned" := mark,
      "memoryByOwner" := memory
    ]
    + (if checkpoint.Some? then map["checkpoint" := checkpoint.value] else map[])
    + (if plan.Some? then map["plan" := plan.value] else map[])
  }

  function OptionalCheckpointToJson(checkpoint: Option<TurnaroundCheckpoint>): Option<Json> {
    match checkpoint
    case Some(taken) => Some(CheckpointToJson(taken))
    case None => None
  }

  function OptionalPlanToJson(plan: Option<FlightPlan>): Option<Json> {
    match plan
    case Some(known) => Some(PlanToJson(known))
    case None => None
  }

  function DocumentToJson(document: TurnaroundDocument, clientVersion: string): Json {
    Obj(Assembled(clientVersion, KeyToJson(document.key), Bool(document.repositioned), MemoryToJson(document.memoryByOwner),
                  OptionalCheckpointToJson(document.checkpoint), OptionalPlanToJson(document.plan)))
  }

  predicate CarriesVersion(json: Json, clientVersion: string) {
    Member(json, "clientVersion") == Str(clientVersion)
  }

  predicate CarriesPhaseCount(json: Json) {
    DecodeInt(Member(json, "phaseCount")) == Some(P.PHASE_COUNT)
  }

  function ReadBody(json: Json): Reading {
    match KeyFromJson(Member(json, "key"))
    case None => Refused(BadKey)
    case Some(key) =>
      match CheckpointFromJson(Member(json, "checkpoint"))
      case None => Refused(BadCheckpoint)
      case Some(checkpoint) =>
        match PlanFromJson(Member(json, "plan"))
        case None => Refused(BadPlan)
        case Some(plan) =>
          match MemoryFromJson(Member(json, "memoryByOwner"))
          case None => Refused(BadMemory)
          case Some(memory) =>
            var mark := Member(json, "repositioned");
            match IfPresent(mark, false, DecodeFlag(mark))
            case None => Refused(BadMark)
            case Some(repositioned) => Accepted(TurnaroundDocument(key, checkpoint, plan, memory, repositioned))
  }

  function DocumentFromJson(json: Json, clientVersion: string): Reading {
    if !CarriesVersion(json, clientVersion) then Refused(WrongVersion)
    else if !CarriesPhaseCount(json) then Refused(WrongPhaseCount)
    else ReadBody(json)
  }

  // ----- The file -----

  const MAX_FILE_BYTES := 1024 * 1024

  datatype File = Missing | File(json: Json, bytes: nat)

  function ReadFile(file: File, opens: bool, clientVersion: string): Option<Reading> {
    match file
    case Missing => None
    case File(json, bytes) =>
      if !opens then Some(Refused(Unreadable))
      else if bytes > MAX_FILE_BYTES then Some(Refused(TooLarge))
      else if !json.Obj? then Some(Refused(NotAnObject))
      else Some(DocumentFromJson(json, clientVersion))
  }

  function Read(file: File, opens: bool, clientVersion: string): Option<TurnaroundDocument> {
    match ReadFile(file, opens, clientVersion)
    case Some(Accepted(document)) => Some(document)
    case _ => None
  }

  /** Writing replaces the whole file or leaves it as it is. */
  function Write(file: File, document: TurnaroundDocument, clientVersion: string, bytes: nat, commits: bool): (File, bool) {
    if document.CanBeReadBack() && commits then (File(DocumentToJson(document, clientVersion), bytes), true) else (file, false)
  }

  // ----- Reading in loops -----

  method ReadBag(json: Json) returns (bag: Option<Entries>)
    ensures bag == BagFromJson(json)
  {
    if IsAbsent(json) {
      return Some([]);
    }
    if !json.Arr? {
      return None;
    }
    var entries := [];
    for i := 0 to |json.items|
      invariant EntriesFromJson(json.items[..i]) == Some(entries)
    {
      assert json.items[..i + 1][..i] == json.items[..i];
      var entry := EntryFromJson(json.items[i]);
      if entry.None? {
        OneMalformedItem(json.items, i);
        return None;
      }
      entries := entries + [entry.value];
    }
    assert json.items[..|json.items|] == json.items;
    return Some(entries);
  }

  lemma {:induction false} OneMalformedItem(items: seq<Json>, i: nat)
    requires i < |items| && EntryFromJson(items[i]).None?
    ensures EntriesFromJson(items).None?
  {
    if i < |items| - 1 {
      OneMalformedItem(items[..|items| - 1], i);
    }
  }

  method ReadMemory(json: Json) returns (memory: Option<map<string, Entries>>)
    ensures memory == MemoryFromJson(json)
  {
    if IsAbsent(json) {
      return Some(map[]);
    }
    if !json.Obj? {
      return None;
    }
    var owners, read := json.fields.Keys, map[];
    while owners != {}
      invariant owners <= json.fields.Keys
      invariant read.Keys == json.fields.Keys - owners
      invariant forall owner | owner in read :: BagFromJson(json.fields[owner]) == Some(read[owner])
      decreases owners
    {
      var owner :| owner in owners;
      owners := owners - {owner};
      var bag := ReadBag(json.fields[owner]);
      if bag.None? {
        return None;
      }
      read := read[owner := bag.value];
    }
    assert MemoryFromJson(json).Some? && read == MemoryFromJson(json).value;
    return Some(read);
  }
}
