/** Writing a saved turnaround and reading it back are inverses, as far as a checkpoint keeps anything. */
module CheckpointProperties {
  import opened Options
  import opened Json
  import opened MemoryBags
  import P = TurnaroundPhases
  import opened TurnaroundDatas
  import opened TurnaroundRestores
  import opened TurnaroundDocuments
  import opened CheckpointCodec
  import M = StateMachineModel

  // ----- The raw fields -----

  const PLANNED_NAMES := {
    "plannedFuelKg", "plannedZfwKg", "plannedPassengers", "initialFuelKg", "initialZfwKg", "boardingCompletionAttempts"
  }

  const MEASURED_NAMES := {
    "omittedCrewKg", "operatingEmptyWithCrewKg", "fuelShortfallKg", "settledFuelKg", "cateringWaitIntervals", "cabinWaitIntervals"
  }

  lemma FlagsAreNotFigures(flag: Flag)
    ensures NameOf(flag) !in PLANNED_NAMES && NameOf(flag) !in MEASURED_NAMES
  {
    NamesEndAsFlags(flag);
    PlannedNamesEnd(NameOf(flag));
    MeasuredNamesEnd(NameOf(flag));
  }

  lemma PlannedNamesEnd(name: string)
    ensures name in PLANNED_NAMES ==> EndsAsAFigure(name)
  {
  }

  lemma MeasuredNamesEnd(name: string)
    ensures name in MEASURED_NAMES ==> EndsAsAFigure(name)
  {
  }

  lemma FigureNames(raw: RawFields)
    ensures PlannedToJson(raw).Keys == PLANNED_NAMES && MeasuredToJson(raw).Keys == MEASURED_NAMES
  {
  }

  lemma OnlyTheFlagHasItsName(flags: set<Flag>, flag: Flag)
    ensures (exists other | other in flags :: NameOf(other) == NameOf(flag)) <==> flag in flags
  {
    forall other | other in flags && NameOf(other) == NameOf(flag) ensures other == flag {
      NamesAreDistinct(other, flag);
    }
  }

  lemma FlagIsWritten(flags: set<Flag>, flag: Flag)
    ensures NameOf(flag) in FlagsToJson(flags) && FlagsToJson(flags)[NameOf(flag)] == Bool(flag in flags)
  {
    OnlyTheFlagHasItsName(flags, flag);
    assert NameOf(flag) in FlagNames();
  }

  lemma WrittenFlag(data: TurnaroundData, flag: Flag)
    ensures FlagAt(DataToJson(data), flag) == Some(flag in data.raw.flags)
  {
    FlagsAreNotFigures(flag);
    FigureNames(data.raw);
    FlagIsWritten(data.raw.flags, flag);
  }

  lemma NoNameIsBoth()
    ensures PLANNED_NAMES !! MEASURED_NAMES
  {
  }

  lemma WrittenPlanned(data: TurnaroundData, name: string)
    requires name in PLANNED_NAMES
    ensures name in PlannedToJson(data.raw) && Member(DataToJson(data), name) == PlannedToJson(data.raw)[name]
  {
    FigureNames(data.raw);
    NoNameIsBoth();
  }

  lemma WrittenMeasured(data: TurnaroundData, name: string)
    requires name in MEASURED_NAMES
    ensures name in MeasuredToJson(data.raw) && Member(DataToJson(data), name) == MeasuredToJson(data.raw)[name]
  {
    FigureNames(data.raw);
  }

  predicate SamePlanned(a: RawFields, b: RawFields) {
    && a.plannedFuelKg == b.plannedFuelKg && a.plannedZfwKg == b.plannedZfwKg && a.plannedPassengers == b.plannedPassengers
    && a.initialFuelKg == b.initialFuelKg && a.initialZfwKg == b.initialZfwKg
    && a.boardingCompletionAttempts == b.boardingCompletionAttempts
  }

  lemma PlannedRoundTrip(data: TurnaroundData)
    requires CountsFit(data.raw)
    ensures PlannedFromJson(DataToJson(data)).Some? && SamePlanned(PlannedFromJson(DataToJson(data)).value, data.raw)
  {
    WholeRoundTrip(data.raw.plannedPassengers);
    WholeRoundTrip(data.raw.boardingCompletionAttempts);
    WrittenPlanned(data, "plannedFuelKg");
    WrittenPlanned(data, "plannedZfwKg");
    WrittenPlanned(data, "plannedPassengers");
    WrittenPlanned(data, "initialFuelKg");
    WrittenPlanned(data, "initialZfwKg");
    WrittenPlanned(data, "boardingCompletionAttempts");
  }

  lemma MeasuredRoundTrip(data: TurnaroundData, planned: RawFields)
    requires CountsFit(data.raw) && SamePlanned(planned, data.raw)
    ensures MeasuredFromJson(DataToJson(data), planned) == Some(data.raw.(flags := planned.flags))
  {
    WholeRoundTrip(data.raw.cateringWaitIntervals);
    WholeRoundTrip(data.raw.cabinWaitIntervals);
    WrittenMeasured(data, "omittedCrewKg");
    WrittenMeasured(data, "operatingEmptyWithCrewKg");
    WrittenMeasured(data, "fuelShortfallKg");
    WrittenMeasured(data, "settledFuelKg");
    WrittenMeasured(data, "cateringWaitIntervals");
    WrittenMeasured(data, "cabinWaitIntervals");
  }

  /** A checkpoint's data comes back as what a checkpoint keeps of it. */
  lemma DataRoundTrip(data: TurnaroundData)
    requires CountsFit(data.raw)
    ensures DataFromJson(DataToJson(data)) == Some(SavedFields(data))
  {
    PlannedRoundTrip(data);
    MeasuredRoundTrip(data, PlannedFromJson(DataToJson(data)).value);
    forall flag: Flag ensures FlagAt(DataToJson(data), flag) == Some(flag in data.raw.flags) {
      WrittenFlag(data, flag);
    }
    assert FlagsFromJson(DataToJson(data)) == data.raw.flags;
  }

  // ----- Memory -----

  lemma {:induction false} EntriesRoundTrip(bag: Entries)
    ensures EntriesFromJson(BagToJson(bag).items) == Some(bag)
  {
    if bag != [] {
      var n := |bag| - 1;
      EntriesRoundTrip(bag[..n]);
      assert BagToJson(bag).items[..n] == BagToJson(bag[..n]).items;
      assert bag == bag[..n] + [bag[n]];
    }
  }

  /** A bag comes back with every entry, in order, repeated names included. */
  lemma BagRoundTrip(bag: Entries)
    ensures BagFromJson(BagToJson(bag)) == Some(bag)
  {
    EntriesRoundTrip(bag);
  }

  lemma MemoryRoundTrip(memoryByOwner: map<string, Entries>)
    ensures MemoryFromJson(MemoryToJson(memoryByOwner)) == Some(memoryByOwner)
  {
    var json := MemoryToJson(memoryByOwner);
    forall owner | owner in memoryByOwner ensures BagFromJson(json.fields[owner]) == Some(memoryByOwner[owner]) {
      BagRoundTrip(memoryByOwner[owner]);
    }
    assert MemoryFromJson(json).value == memoryByOwner;
  }

  // ----- Key, checkpoint and plan -----

  lemma KeyRoundTrip(key: TurnaroundKey)
    ensures KeyFromJson(KeyToJson(key)) == Some(key)
  {
  }

  lemma CheckpointMembers(checkpoint: TurnaroundCheckpoint)
    ensures var json := CheckpointToJson(checkpoint);
            && Member(json, "phase") == Str(P.TextOf(checkpoint.phase))
            && Member(json, "data") == DataToJson(checkpoint.data)
            && Member(json, "aircraftMemory") == BagToJson(checkpoint.aircraftMemory)
  {
  }

  lemma ResumablePhaseRoundTrip(phase: P.Phase)
    requires P.IsResumable(phase)
    ensures ResumablePhaseFrom(Str(P.TextOf(phase))) == Some(phase)
  {
    P.PhaseRoundTrip(phase);
  }

  lemma CheckpointRoundTrip(checkpoint: TurnaroundCheckpoint)
    requires P.IsResumable(checkpoint.phase) && CountsFit(checkpoint.data.raw)
    ensures CheckpointFromJson(CheckpointToJson(checkpoint)) == Some(Some(checkpoint.(data := SavedFields(checkpoint.data))))
  {
    CheckpointMembers(checkpoint);
    ResumablePhaseRoundTrip(checkpoint.phase);
    DataRoundTrip(checkpoint.data);
    BagRoundTrip(checkpoint.aircraftMemory);
  }

  predicate PlanFits(plan: FlightPlan) {
    IsInt32(plan.passengers) && IsInt32(plan.unit) && IsInt64(plan.generatedEpoch)
  }

  lemma PlanMembers(plan: FlightPlan)
    ensures var json := PlanToJson(plan);
            && Member(json, "fuelKg") == Num(plan.fuelKg) && Member(json, "zfwKg") == Num(plan.zfwKg)
            && Member(json, "passengers") == Num(plan.passengers as real) && Member(json, "unit") == Num(plan.unit as real)
            && Member(json, "origin") == Str(plan.origin) && Member(json, "destination") == Str(plan.destination)
            && Member(json, "generatedEpoch") == Num(plan.generatedEpoch as real)
            && Member(json, "operatingEmptyKg") == Num(plan.operatingEmptyKg)
            && Member(json, "payloadKg") == EncodeOptionalAmount(plan.payloadKg)
            && Member(json, "cargoKg") == EncodeOptionalAmount(plan.cargoKg)
  {
  }

  lemma PlanRoundTrip(plan: FlightPlan)
    requires PlanFits(plan) && IsKnownUnit(plan.unit)
    ensures PlanFromJson(PlanToJson(plan)) == Some(Some(plan))
  {
    PlanMembers(plan);
    WholeRoundTrip(plan.passengers);
    WholeRoundTrip(plan.unit);
    WholeRoundTrip(plan.generatedEpoch);
  }

  // ----- Documents -----

  /** The whole numbers of a document are numbers of their C++ types. */
  predicate Fits(document: TurnaroundDocument) {
    && (document.checkpoint.Some? ==> CountsFit(document.checkpoint.value.data.raw))
    && (document.plan.Some? ==> PlanFits(document.plan.value))
  }

  function ProjectedCheckpoint(checkpoint: Option<TurnaroundCheckpoint>): Option<TurnaroundCheckpoint> {
    match checkpoint
    case None => None
    case Some(taken) => Some(taken.(data := SavedFields(taken.data)))
  }

  function Projected(document: TurnaroundDocument): TurnaroundDocument {
    document.(checkpoint := ProjectedCheckpoint(document.checkpoint))
  }

  function OrUndefined(json: Option<Json>): Json {
    match json
    case Some(value) => value
    case None => Undefined
  }

  lemma AssembledMembers(clientVersion: string, key: Json, mark: Json, memory: Json, checkpoint: Option<Json>, plan: Option<Json>)
    ensures var json := Obj(Assembled(clientVersion, key, mark, memory, checkpoint, plan));
            && Member(json, "clientVersion") == Str(clientVersion) && Member(json, "phaseCount") == Num(P.PHASE_COUNT as real)
            && Member(json, "key") == key && Member(json, "repositioned") == mark && Member(json, "memoryByOwner") == memory
            && Member(json, "checkpoint") == OrUndefined(checkpoint) && Member(json, "plan") == OrUndefined(plan)
  {
  }

  lemma OptionalCheckpointRoundTrip(checkpoint: Option<TurnaroundCheckpoint>)
    requires checkpoint.Some? ==> P.IsResumable(checkpoint.value.phase) && CountsFit(checkpoint.value.data.raw)
    ensures CheckpointFromJson(OrUndefined(OptionalCheckpointToJson(checkpoint))) == Some(ProjectedCheckpoint(checkpoint))
  {
    if checkpoint.Some? {
      CheckpointRoundTrip(checkpoint.value);
    }
  }

  lemma OptionalPlanRoundTrip(plan: Option<FlightPlan>)
    requires plan.Some? ==> PlanFits(plan.value) && IsKnownUnit(plan.value.unit)
    ensures PlanFromJson(OrUndefined(OptionalPlanToJson(plan))) == Some(plan)
  {
    if plan.Some? {
      PlanRoundTrip(plan.value);
    }
  }

  lemma StampIsCarried(json: Json, clientVersion: string)
    requires Member(json, "clientVersion") == Str(clientVersion) && Member(json, "phaseCount") == Num(P.PHASE_COUNT as real)
    ensures DocumentFromJson(json, clientVersion) == ReadBody(json)
  {
    WholeRoundTrip(P.PHASE_COUNT);
  }

  /** What is read of a document that was written is the document with what a checkpoint keeps of its data. */
  lemma DocumentRoundTrip(document: TurnaroundDocument, clientVersion: string)
    requires document.CanBeReadBack() && Fits(document)
    ensures DocumentFromJson(DocumentToJson(document, clientVersion), clientVersion) == Accepted(Projected(document))
  {
    var json := DocumentToJson(document, clientVersion);
    AssembledMembers(clientVersion, KeyToJson(document.key), Bool(document.repositioned), MemoryToJson(document.memoryByOwner),
                     OptionalCheckpointToJson(document.checkpoint), OptionalPlanToJson(document.plan));
    StampIsCarried(json, clientVersion);
    KeyRoundTrip(document.key);
    MemoryRoundTrip(document.memoryByOwner);
    OptionalCheckpointRoundTrip(document.checkpoint);
    OptionalPlanRoundTrip(document.plan);
    BodyRoundTrip(json, document);
  }

  lemma BodyRoundTrip(json: Json, document: TurnaroundDocument)
    requires KeyFromJson(Member(json, "key")) == Some(document.key)
    requires CheckpointFromJson(Member(json, "checkpoint")) == Some(Projected(document).checkpoint)
    requires PlanFromJson(Member(json, "plan")) == Some(document.plan)
    requires MemoryFromJson(Member(json, "memoryByOwner")) == Some(document.memoryByOwner)
    requires Member(json, "repositioned") == Bool(document.repositioned)
    ensures ReadBody(json) == Accepted(Projected(document))
  {
  }

  /** A written document is read back as itself exactly when its data is what a checkpoint keeps. */
  lemma DocumentIsReadBackAsItself(document: TurnaroundDocument, clientVersion: string)
    requires document.CanBeReadBack() && Fits(document)
    ensures DocumentFromJson(DocumentToJson(document, clientVersion), clientVersion) == Accepted(document)
            <==> (document.checkpoint.Some? ==> SavedFields(document.checkpoint.value.data) == document.checkpoint.value.data)
  {
    DocumentRoundTrip(document, clientVersion);
  }

  /** A file of another version, or of another number of phases, is refused whatever else it holds. */
  lemma OtherStampsAreRefused(json: Json, clientVersion: string)
    ensures !CarriesVersion(json, clientVersion) ==> DocumentFromJson(json, clientVersion) == Refused(WrongVersion)
    ensures DocumentFromJson(json, clientVersion).Accepted? ==>
            Member(json, "clientVersion") == Str(clientVersion) && Member(json, "phaseCount") == Num(P.PHASE_COUNT as real)
  {
  }

  lemma DocumentOfAnotherVersionIsRefused(document: TurnaroundDocument, written: string, clientVersion: string)
    requires written != clientVersion
    ensures DocumentFromJson(DocumentToJson(document, written), clientVersion) == Refused(WrongVersion)
  {
    AssembledMembers(written, KeyToJson(document.key), Bool(document.repositioned), MemoryToJson(document.memoryByOwner),
                     OptionalCheckpointToJson(document.checkpoint), OptionalPlanToJson(document.plan));
  }

  // ----- Whatever is accepted -----

  lemma ReadDataIsKept(json: Json)
    requires DataFromJson(json).Some?
    ensures var data := DataFromJson(json).value; SavedFields(data) == data && CountsFit(data.raw)
  {
  }

  lemma ReadPlanFits(json: Json)
    requires PlanFromObject(json).Some?
    ensures var plan := PlanFromObject(json).value; PlanFits(plan) && IsKnownUnit(plan.unit)
  {
  }

  lemma ReadCheckpointIsKept(json: Json)
    requires CheckpointFromJson(json).Some? && CheckpointFromJson(json).value.Some?
    ensures var checkpoint := CheckpointFromJson(json).value.value;
            && P.IsResumable(checkpoint.phase) && CountsFit(checkpoint.data.raw)
            && SavedFields(checkpoint.data) == checkpoint.data
  {
    ReadDataIsKept(Member(json, "data"));
  }

  /**
    Whatever file is accepted, however it came about: its document can be written again, and is then read back
    as itself.
  */
  lemma AcceptedCanBeWrittenAgain(json: Json, clientVersion: string)
    requires DocumentFromJson(json, clientVersion).Accepted?
    ensures var document := DocumentFromJson(json, clientVersion).document;
            && document.CanBeReadBack() && Fits(document)
            && DocumentFromJson(DocumentToJson(document, clientVersion), clientVersion) == Accepted(document)
  {
    var document := DocumentFromJson(json, clientVersion).document;
    if document.checkpoint.Some? {
      ReadCheckpointIsKept(Member(json, "checkpoint"));
    }
    if document.plan.Some? {
      ReadPlanFits(Member(json, "plan"));
    }
    DocumentIsReadBackAsItself(document, clientVersion);
  }

  // ----- The file -----

  /**
    A write that succeeds puts a document into the file that is read back as what a checkpoint keeps of it, as
    long as the file can be opened and is no larger than the cap; a write that fails leaves the file alone.
  */
  lemma WrittenFileIsReadBack(file: File, document: TurnaroundDocument, clientVersion: string, bytes: nat, commits: bool, opens: bool)
    requires Fits(document)
    ensures var (after, ok) := Write(file, document, clientVersion, bytes, commits);
            && (ok <==> document.CanBeReadBack() && commits)
            && if ok then Read(after, opens, clientVersion) == (if opens && bytes <= MAX_FILE_BYTES then Some(Projected(document)) else None)
               else after == file
  {
    if document.CanBeReadBack() {
      DocumentRoundTrip(document, clientVersion);
      ReadingAFile(DocumentToJson(document, clientVersion), bytes, opens, clientVersion, Projected(document));
    }
  }

  lemma ReadingAFile(json: Json, bytes: nat, opens: bool, clientVersion: string, document: TurnaroundDocument)
    requires json.Obj? && DocumentFromJson(json, clientVersion) == Accepted(document)
    ensures Read(File(json, bytes), opens, clientVersion) == if opens && bytes <= MAX_FILE_BYTES then Some(document) else None
  {
  }

  /** Only documents that can be written again are ever read from a file. */
  lemma ReadDocumentCanBeReadBack(file: File, opens: bool, clientVersion: string)
    requires Read(file, opens, clientVersion).Some?
    ensures Read(file, opens, clientVersion).value.CanBeReadBack()
  {
    AcceptedCanBeWrittenAgain(file.json, clientVersion);
  }

  /** What the step machine saves is read back as itself: its checkpoints are their own projections. */
  lemma SavedTurnaroundIsReadBack(m: M.Machine, document: TurnaroundDocument, aircraftMemory: Entries, file: File, clientVersion: string, bytes: nat)
    requires document.checkpoint == M.TakeCheckpoint(m, aircraftMemory)
    requires document.plan.Some? ==> IsKnownUnit(document.plan.value.unit)
    requires Fits(document) && bytes <= MAX_FILE_BYTES
    ensures var (after, ok) := Write(file, document, clientVersion, bytes, true);
            ok && Read(after, true, clientVersion) == Some(document)
  {
    if document.checkpoint.Some? {
      SavingTwiceIsSavingOnce(m.context.data);
    }
    WrittenFileIsReadBack(file, document, clientVersion, bytes, true, true);
  }
}
