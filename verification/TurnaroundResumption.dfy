/**
  The staged resume of a saved turnaround (`TurnaroundResumption.cpp`): what each call leaves behind, with a
  store whose writes and erases fail at will.  A failed write leaves the store as it was.
*/
module Resumptions {
  import opened Options
  import opened TurnaroundPhases
  import opened TurnaroundDocuments
  import opened KeyJudgement

  datatype Stage = Idle | Judging | Deciding | Restoring

  datatype Hold = NoHold | JudgingSavedTurnaround | AwaitingResumeDecision | AwaitingGsxReadings | AwaitingAircraft

  datatype LiveFacts = LiveFacts(key: TurnaroundKey, readingsArrived: bool, aircraftReachable: bool)

  datatype Restoration = Restoration(document: TurnaroundDocument, gsxRestartedSinceSave: bool)

  datatype Advancement = Advancement(restoration: Option<Restoration>, repositioned: bool)

  /** The resumption together with what its store holds. */
  datatype Resumption = Resumption(
    hasStore: bool,
    stored: Option<TurnaroundDocument>,
    pending: Option<TurnaroundDocument>,
    lastWritten: Option<TurnaroundDocument>,
    stage: Stage,
    restoringHold: Hold,
    couatlDiffers: bool,
    releasedRepositioned: bool,
    pilotResumed: bool,
    discardPending: bool)

  /** A process that has just started, with what an earlier one left in the store. */
  function Started(hasStore: bool, stored: Option<TurnaroundDocument>): Resumption {
    Resumption(hasStore, if hasStore then stored else None, None, None, Idle, AwaitingGsxReadings, false, false, false, false)
  }

  function HoldOf(s: Resumption): Hold {
    match s.stage
    case Judging => JudgingSavedTurnaround
    case Deciding => AwaitingResumeDecision
    case Restoring => s.restoringHold
    case Idle => NoHold
  }

  function Forget(s: Resumption): Resumption {
    s.(pending := None, releasedRepositioned := false, stage := Idle, couatlDiffers := false, pilotResumed := false)
  }

  function Readable(stored: Option<TurnaroundDocument>): Option<TurnaroundDocument> {
    if stored.Some? && stored.value.HasAnythingToRead() then stored else None
  }

  function Read(s: Resumption): Resumption {
    match Readable(s.stored)
    case None => s
    case Some(document) => s.(pending := Some(document), stage := Judging)
  }

  function Load(s: Resumption, erases: bool): Resumption {
    var forgotten := Forget(s);
    if !s.hasStore then forgotten
    else if !s.discardPending then Read(forgotten)
    else if erases then Read(forgotten.(stored := None))
    else forgotten
  }

  function Erase(s: Resumption, erases: bool): Resumption {
    if erases then s.(stored := None, discardPending := false) else s.(discardPending := true)
  }

  function Discard(s: Resumption, erases: bool): Resumption {
    var forgotten := Forget(s).(lastWritten := None);
    if s.hasStore then Erase(forgotten, erases) else forgotten
  }

  function RetryPendingDiscard(s: Resumption, erases: bool): Resumption {
    if s.discardPending then Erase(s, erases) else s
  }

  function AnswerResume(s: Resumption): Resumption {
    if s.stage != Deciding then s
    else s.(stage := Restoring, pilotResumed := true, restoringHold := AwaitingGsxReadings)
  }

  function EnterJudgedStage(s: Resumption, couatlDiffers: bool): Resumption {
    s.(couatlDiffers := couatlDiffers, restoringHold := AwaitingGsxReadings, stage := if couatlDiffers then Deciding else Restoring)
  }

  function NoteCouatlChanged(s: Resumption): Resumption {
    s.(couatlDiffers := true, stage := if s.pilotResumed then s.stage else Deciding)
  }

  function VerdictOn(s: Resumption, live: TurnaroundKey): KeyVerdict
    requires s.pending.Some?
  {
    KeyJudgement.Judge(s.pending.value.key, live, s.pending.value.PhaseOf())
  }

  function JudgePending(s: Resumption, live: TurnaroundKey, erases: bool): Resumption {
    if s.pending.None? then s
    else
      var verdict := VerdictOn(s, live);
      if verdict == NotYetJudgeable then s
      else if verdict == Different then Discard(s, erases)
      else if s.pending.value.checkpoint.None? then Forget(s).(releasedRepositioned := verdict == Same)
      else if s.stage == Judging then EnterJudgedStage(s, verdict == OnlyCouatlDiffers)
      else if s.stage == Restoring && verdict == OnlyCouatlDiffers then NoteCouatlChanged(s)
      else s
  }

  function Advance(s: Resumption, live: LiveFacts, erases: bool): (Resumption, Advancement) {
    var judged := JudgePending(s, live.key, erases);
    var taken := judged.(releasedRepositioned := false);
    if judged.pending.None? || judged.stage != Restoring then (taken, Advancement(None, judged.releasedRepositioned))
    else
      var waiting := taken.(restoringHold := if live.readingsArrived then AwaitingAircraft else AwaitingGsxReadings);
      if !live.readingsArrived || !live.aircraftReachable then (waiting, Advancement(None, judged.releasedRepositioned))
      else
        var document := judged.pending.value;
        (waiting, Advancement(Some(Restoration(document, judged.couatlDiffers)), document.repositioned && !judged.couatlDiffers))
  }

  function Settle(s: Resumption): Resumption {
    Forget(s.(lastWritten := s.pending))
  }

  function WriteAnyway(s: Resumption, document: TurnaroundDocument, writes: bool): Resumption {
    if !writes || !document.CanBeReadBack() then s
    else Forget(s.(stored := Some(document), discardPending := false, lastWritten := Some(document)))
  }

  /** Saving skips the write when the last document written is the one to save. */
  function Save(s: Resumption, document: TurnaroundDocument, writes: bool): Resumption {
    if !s.hasStore || s.lastWritten == Some(document) then s else WriteAnyway(s, document, writes)
  }

  /** Saving without the skip. */
  function SaveAlways(s: Resumption, document: TurnaroundDocument, writes: bool): Resumption {
    if s.hasStore then WriteAnyway(s, document, writes) else s
  }

  // ----- Runs -----

  datatype Call =
    | CallLoad(erases: bool)
    | CallForget
    | CallDiscard(erases: bool)
    | CallRetry(erases: bool)
    | CallAnswer
    | CallAdvance(live: LiveFacts, erases: bool)
    | CallSettle
    | CallSave(document: TurnaroundDocument, writes: bool)

  function Take(s: Resumption, call: Call): Resumption {
    match call
    case CallLoad(erases) => Load(s, erases)
    case CallForget => Forget(s)
    case CallDiscard(erases) => Discard(s, erases)
    case CallRetry(erases) => RetryPendingDiscard(s, erases)
    case CallAnswer => AnswerResume(s)
    case CallAdvance(live, erases) => Advance(s, live, erases).0
    case CallSettle => Settle(s)
    case CallSave(document, writes) => Save(s, document, writes)
  }

  /** What a call hands back, if it is an advance that hands something back. */
  function HandedBack(s: Resumption, call: Call): Option<Restoration> {
    if call.CallAdvance? then Advance(s, call.live, call.erases).1.restoration else None
  }

  function Run(start: Resumption, calls: seq<Call>): Resumption {
    if calls == [] then start else Take(Run(start, calls[..|calls| - 1]), calls[|calls| - 1])
  }

  predicate Valid(s: Resumption) {
    && (s.pending.Some? <==> s.stage != Idle)
    && (s.pending.Some? ==> s.stored == s.pending && s.pending.value.HasAnythingToRead())
    && (s.stage == Deciding || s.stage == Restoring ==> s.pending.value.checkpoint.Some?)
    && (s.lastWritten.Some? ==> s.stored == s.lastWritten)
    && (s.discardPending ==> s.hasStore && s.lastWritten.None? && s.pending.None?)
    && (s.stage == Restoring && s.couatlDiffers ==> s.pilotResumed)
    && (s.stage == Deciding ==> s.couatlDiffers)
    && (s.pilotResumed ==> s.stage == Restoring)
    && (s.stage == Idle ==> !s.couatlDiffers)
    && !s.releasedRepositioned
    && (!s.hasStore ==> s.stored.None?)
    && (s.stored.Some? ==> s.stored.value.CanBeReadBack())
    && s.restoringHold in {AwaitingGsxReadings, AwaitingAircraft}
  }

  lemma JudgingKeepsValid(s: Resumption, live: TurnaroundKey, erases: bool)
    requires Valid(s)
    ensures var judged := JudgePending(s, live, erases); Valid(judged.(releasedRepositioned := false))
  {
  }

  lemma CallKeepsValid(s: Resumption, call: Call)
    requires Valid(s)
    ensures Valid(Take(s, call))
  {
    if call.CallAdvance? {
      JudgingKeepsValid(s, call.live.key, call.erases);
    }
  }

  /**
    In every run: a document is pending exactly when a stage other than Idle is on, the last document written
    is what the store holds, and a discard that is still to be done leaves no document known as written.
  */
  lemma {:induction false} EveryRunIsValid(start: Resumption, calls: seq<Call>)
    requires Valid(start)
    ensures Valid(Run(start, calls)) && Run(start, calls).hasStore == start.hasStore
  {
    if calls != [] {
      var n := |calls| - 1;
      EveryRunIsValid(start, calls[..n]);
      CallKeepsValid(Run(start, calls[..n]), calls[n]);
      StoreStays(Run(start, calls[..n]), calls[n]);
    }
  }

  lemma JudgingKeepsTheStore(s: Resumption, live: TurnaroundKey, erases: bool)
    ensures JudgePending(s, live, erases).hasStore == s.hasStore
  {
  }

  lemma StoreStays(s: Resumption, call: Call)
    ensures Take(s, call).hasStore == s.hasStore
  {
    if call.CallAdvance? {
      JudgingKeepsTheStore(s, call.live.key, call.erases);
    }
  }

  // ----- Skipping a write -----

  /** The skip changes nothing in the store, and nothing at all when no document is pending, as when the runtime saves. */
  lemma SkippingIsWriting(start: Resumption, calls: seq<Call>, document: TurnaroundDocument, writes: bool)
    requires Valid(start)
    ensures var s := Run(start, calls);
            && Save(s, document, writes).stored == SaveAlways(s, document, writes).stored
            && (s.stage == Idle ==> Save(s, document, writes) == SaveAlways(s, document, writes))
  {
    EveryRunIsValid(start, calls);
  }

  // ----- A discarded document is gone -----

  predicate IsDiscardedBy(s: Resumption, call: Call) {
    call.CallDiscard? || (call.CallAdvance? && s.pending.Some? && VerdictOn(s, call.live.key) == Different)
  }

  predicate IsSavedBy(s: Resumption, call: Call) {
    call.CallSave? && s.hasStore && call.writes && call.document.CanBeReadBack()
  }

  /** The document that ought to be handed back: the last one saved, unless it was discarded since. */
  function WantedAfter(wanted: Option<TurnaroundDocument>, s: Resumption, call: Call): Option<TurnaroundDocument> {
    if IsDiscardedBy(s, call) then None
    else if IsSavedBy(s, call) then Some(call.document)
    else wanted
  }

  function Wanted(start: Resumption, calls: seq<Call>): Option<TurnaroundDocument> {
    if calls == [] then start.stored
    else
      var n := |calls| - 1;
      WantedAfter(Wanted(start, calls[..n]), Run(start, calls[..n]), calls[n])
  }

  /** The store holds the wanted document, unless it still holds one whose discard is to be done. */
  predicate KeepsWhatIsWanted(s: Resumption, wanted: Option<TurnaroundDocument>) {
    if s.discardPending then wanted == None else s.stored == wanted
  }

  lemma CallKeepsWhatIsWanted(s: Resumption, wanted: Option<TurnaroundDocument>, call: Call)
    requires Valid(s) && KeepsWhatIsWanted(s, wanted)
    ensures KeepsWhatIsWanted(Take(s, call), WantedAfter(wanted, s, call))
  {
  }

  lemma {:induction false} EveryRunKeepsWhatIsWanted(start: Resumption, calls: seq<Call>)
    requires Valid(start) && !start.discardPending
    ensures KeepsWhatIsWanted(Run(start, calls), Wanted(start, calls))
  {
    if calls != [] {
      var n := |calls| - 1;
      EveryRunIsValid(start, calls[..n]);
      EveryRunKeepsWhatIsWanted(start, calls[..n]);
      CallKeepsWhatIsWanted(Run(start, calls[..n]), Wanted(start, calls[..n]), calls[n]);
    }
  }

  lemma HandedBackIsPending(s: Resumption, call: Call)
    requires Valid(s) && HandedBack(s, call).Some?
    ensures var restoration := HandedBack(s, call).value;
            && s.pending == Some(restoration.document) && Take(s, call).pending == s.pending
            && restoration.document.checkpoint.Some?
            && IsResumable(restoration.document.checkpoint.value.phase)
            && (restoration.gsxRestartedSinceSave ==> s.pilotResumed)
            && !IsDiscardedBy(s, call)
  {
  }

  /**
    Whatever is handed back is the document last saved and not discarded since, it carries a checkpoint of a
    phase that can be resumed, and it is said to be of another GSX run only after the pilot agreed to that.
  */
  lemma OnlyTheWantedIsHandedBack(start: Resumption, calls: seq<Call>, call: Call)
    requires Valid(start) && !start.discardPending && !start.pilotResumed
    requires HandedBack(Run(start, calls), call).Some?
    ensures var restoration := HandedBack(Run(start, calls), call).value;
            && Wanted(start, calls) == Some(restoration.document)
            && restoration.document.checkpoint.Some?
            && IsResumable(restoration.document.checkpoint.value.phase)
            && (restoration.gsxRestartedSinceSave ==> PilotAnswered(start, calls))
  {
    EveryRunIsValid(start, calls);
    EveryRunKeepsWhatIsWanted(start, calls);
    HandedBackIsPending(Run(start, calls), call);
    if Run(start, calls).pilotResumed {
      PilotResumedMeansAnswered(start, calls);
    }
  }

  /** The answer of the pilot was asked for and given. */
  predicate IsAnsweredAt(start: Resumption, calls: seq<Call>, i: nat) {
    i < |calls| && calls[i].CallAnswer? && Run(start, calls[..i]).stage == Deciding
  }

  /** The pilot was asked and agreed since the last time a saved turnaround was loaded. */
  predicate PilotAnswered(start: Resumption, calls: seq<Call>) {
    exists i: nat | i < |calls| :: IsAnsweredAt(start, calls, i) && forall k | i < k < |calls| :: !calls[k].CallLoad?
  }

  lemma AnswersOfOneMore(start: Resumption, calls: seq<Call>, i: nat)
    requires calls != [] && i < |calls| - 1
    ensures IsAnsweredAt(start, calls[..|calls| - 1], i) <==> IsAnsweredAt(start, calls, i)
  {
    assert calls[..|calls| - 1][..i] == calls[..i];
  }

  lemma {:induction false} PilotResumedMeansAnswered(start: Resumption, calls: seq<Call>)
    requires !start.pilotResumed && Run(start, calls).pilotResumed
    ensures PilotAnswered(start, calls)
  {
    if calls != [] {
      var n := |calls| - 1;
      OnlyAnsweringMarks(Run(start, calls[..n]), calls[n]);
      if calls[n].CallAnswer? && Run(start, calls[..n]).stage == Deciding {
        assert IsAnsweredAt(start, calls, n);
      } else {
        PilotResumedMeansAnswered(start, calls[..n]);
        var i: nat :| i < n && IsAnsweredAt(start, calls[..n], i) && forall k | i < k < n :: !calls[..n][k].CallLoad?;
        assert forall k | i < k < n :: calls[k] == calls[..n][k];
        AnswersOfOneMore(start, calls, i);
      }
    }
  }

  lemma OnlyAnsweringMarks(s: Resumption, call: Call)
    requires Take(s, call).pilotResumed
    ensures (call.CallAnswer? && s.stage == Deciding) || (s.pilotResumed && !call.CallLoad?)
  {
  }

  // ----- Whether the last session repositioned -----

  /** The verdict an advance reaches, if the reading is full enough for one. */
  function VerdictAt(s: Resumption, call: Call): Option<KeyVerdict> {
    if call.CallAdvance? && s.pending.Some? && VerdictOn(s, call.live.key) != NotYetJudgeable
    then Some(VerdictOn(s, call.live.key))
    else None
  }

  /** The last verdict on a saved turnaround since one was last loaded. */
  function LastVerdict(start: Resumption, calls: seq<Call>): Option<KeyVerdict> {
    if calls == [] then None
    else
      var n := |calls| - 1;
      match VerdictAt(Run(start, calls[..n]), calls[n])
      case Some(verdict) => Some(verdict)
      case None => if calls[n].CallLoad? then None else LastVerdict(start, calls[..n])
  }

  /** While restoring without a restart mark the last verdict was Same; without a checkpoint there was none yet. */
  predicate VerdictFits(s: Resumption, last: Option<KeyVerdict>) {
    && (s.stage == Judging ==> last == None)
    && (s.stage == Restoring && !s.couatlDiffers ==> last == Some(Same))
  }

  lemma CallKeepsTheVerdictFitting(s: Resumption, last: Option<KeyVerdict>, call: Call)
    requires Valid(s) && VerdictFits(s, last)
    ensures var verdict := VerdictAt(s, call);
            VerdictFits(Take(s, call), if verdict.Some? then verdict else if call.CallLoad? then None else last)
  {
  }

  lemma {:induction false} LastVerdictFits(start: Resumption, calls: seq<Call>)
    requires Valid(start) && start.stage == Idle
    ensures VerdictFits(Run(start, calls), LastVerdict(start, calls))
  {
    if calls != [] {
      var n := |calls| - 1;
      EveryRunIsValid(start, calls[..n]);
      LastVerdictFits(start, calls[..n]);
      CallKeepsTheVerdictFitting(Run(start, calls[..n]), LastVerdict(start, calls[..n]), calls[n]);
    }
  }

  /** What an advance reports of the last session having repositioned. */
  predicate ReportsRepositioned(s: Resumption, call: Call) {
    call.CallAdvance? && Advance(s, call.live, call.erases).1.repositioned
  }

  lemma ReportOfAnAdvance(s: Resumption, last: Option<KeyVerdict>, call: Call)
    requires Valid(s) && VerdictFits(s, last) && call.CallAdvance?
    ensures var verdict := VerdictAt(s, call);
            var handed := HandedBack(s, call);
            ReportsRepositioned(s, call)
            <==> && s.pending.Some? && s.pending.value.repositioned
                 && if s.pending.value.checkpoint.None? then verdict == Some(Same) else handed.Some? && !handed.value.gsxRestartedSinceSave
    ensures ReportsRepositioned(s, call) ==> (if VerdictAt(s, call).Some? then VerdictAt(s, call) else last) == Some(Same)
  {
  }

  /**
    In every run it is reported that the last session repositioned exactly when the pending document says so and is
    either without a checkpoint and found the same now, or handed back and not as of another GSX run.  Then it is the
    document last saved and not discarded since, and the last verdict on it was Same.
  */
  lemma RepositionedIsReportedOfTheSame(start: Resumption, calls: seq<Call>, call: Call)
    requires Valid(start) && !start.discardPending && start.stage == Idle && call.CallAdvance?
    ensures var s, handed := Run(start, calls), HandedBack(Run(start, calls), call);
            ReportsRepositioned(s, call)
            <==> && s.pending.Some? && s.pending.value.repositioned
                 && if s.pending.value.checkpoint.None? then VerdictAt(s, call) == Some(Same)
                    else handed.Some? && !handed.value.gsxRestartedSinceSave
    ensures ReportsRepositioned(Run(start, calls), call) ==>
            Wanted(start, calls) == Run(start, calls).pending && LastVerdict(start, calls + [call]) == Some(Same)
  {
    EveryRunIsValid(start, calls);
    EveryRunKeepsWhatIsWanted(start, calls);
    LastVerdictFits(start, calls);
    ReportOfAnAdvance(Run(start, calls), LastVerdict(start, calls), call);
    assert (calls + [call])[..|calls|] == calls;
  }

  lemma {:induction false} NothingIsWantedAfterADiscard(start: Resumption, calls: seq<Call>, i: nat)
    requires i < |calls| && IsDiscardedBy(Run(start, calls[..i]), calls[i])
    requires forall k | i < k < |calls| :: !IsSavedBy(Run(start, calls[..k]), calls[k])
    ensures Wanted(start, calls) == None
  {
    var n := |calls| - 1;
    if i < n {
      assert calls[..n][..i] == calls[..i];
      forall k | i < k < n ensures !IsSavedBy(Run(start, calls[..n][..k]), calls[..n][k]) {
        assert calls[..n][..k] == calls[..k];
      }
      NothingIsWantedAfterADiscard(start, calls[..n], i);
    }
  }

  /** A discarded document is not handed back, however many erases fail, until a newer one has been saved. */
  lemma DiscardedIsNotHandedBack(start: Resumption, calls: seq<Call>, i: nat, call: Call)
    requires Valid(start) && !start.discardPending && !start.pilotResumed
    requires i < |calls| && IsDiscardedBy(Run(start, calls[..i]), calls[i])
    requires forall k | i < k < |calls| :: !IsSavedBy(Run(start, calls[..k]), calls[k])
    ensures HandedBack(Run(start, calls), call).None?
  {
    NothingIsWantedAfterADiscard(start, calls, i);
    if HandedBack(Run(start, calls), call).Some? {
      OnlyTheWantedIsHandedBack(start, calls, call);
      assert false;
    }
  }

  /**
    The intention to discard does not outlive the process: what the next process loads is what was wanted
    exactly when no readable document was left in the store with its discard still to be done.
  */
  lemma NextProcessLoadsWhatWasWanted(start: Resumption, calls: seq<Call>, erases: bool)
    requires Valid(start) && !start.discardPending && start.hasStore
    ensures var ended := Run(start, calls);
            Load(Started(true, ended.stored), erases).pending == Readable(Wanted(start, calls))
            <==> !ended.discardPending || Readable(ended.stored).None?
  {
    EveryRunIsValid(start, calls);
    EveryRunKeepsWhatIsWanted(start, calls);
  }

  /** Any readable document whose discard fails is loaded again by the next process, although nothing is wanted. */
  lemma DiscardIsLostWithTheProcess(document: TurnaroundDocument)
    requires document.CanBeReadBack() && document.HasAnythingToRead()
    ensures var calls := [CallLoad(true), CallDiscard(false)];
            var start := Started(true, Some(document));
            && Valid(start) && Wanted(start, calls) == None
            && Load(Started(true, Run(start, calls).stored), true).pending == Some(document)
  {
    var calls := [CallLoad(true), CallDiscard(false)];
    var start := Started(true, Some(document));
    assert calls[..1][..0] == [] && calls[..1] == [CallLoad(true)];
    assert Run(start, calls[..1]) == Load(start, true);
    assert Run(start, calls) == Discard(Load(start, true), false);
  }

  // ----- One tick of the runtime -----

  predicate IsIdentified(key: TurnaroundKey) {
    key.couatlId != "" && key.aircraftId != "" && key.aircraftTitle != ""
  }

  /** What the runtime would save in this tick: nothing unless it drives the turnaround in a phase worth saving. */
  datatype Saving = Saving(driving: bool, phase: Phase, document: TurnaroundDocument)
  {
    predicate IsDue() {
      driving && Rank(phase) >= Rank(RepositionAircraft) && IsIdentified(document.key)
    }
  }

  datatype Resumed = NothingToResume | NoCheckpoint | ResumedAt(phase: Phase, gsxRestarted: bool) | UnknownPhase

  /** The runtime saves only while the resumption holds nothing up. */
  function SaveTurnaround(s: Resumption, saving: Saving, writes: bool): Resumption {
    if saving.IsDue() && HoldOf(s) == NoHold then Save(s, saving.document, writes) else s
  }

  function RestoreSavedTurnaround(s: Resumption, restoration: Restoration, erases: bool): (Resumption, Resumed) {
    match restoration.document.checkpoint
    case None => (Discard(s, erases), NoCheckpoint)
    case Some(checkpoint) =>
      if IsResumable(checkpoint.phase) then (Settle(s), ResumedAt(checkpoint.phase, restoration.gsxRestartedSinceSave))
      else (Forget(Discard(s, erases)), UnknownPhase)
  }

  function AdvanceResumption(s: Resumption, live: LiveFacts, erases: bool): (Resumption, Resumed) {
    if s.pending.None? then (s, NothingToResume)
    else
      var (advanced, advancement) := Advance(s, live, erases);
      match advancement.restoration
      case None => (advanced, NothingToResume)
      case Some(restoration) => RestoreSavedTurnaround(advanced, restoration, erases)
  }

  /**
    In every run the runtime never meets a document to restore that has no checkpoint or a phase it does not
    know: it resumes the document, which from then on counts as written, and nothing is held up any more.
  */
  lemma EveryRestorationIsResumed(start: Resumption, calls: seq<Call>, live: LiveFacts, erases: bool)
    requires Valid(start)
    ensures var s := Run(start, calls);
            var (after, resumed) := AdvanceResumption(s, live, erases);
            && Valid(after) && !resumed.NoCheckpoint? && !resumed.UnknownPhase?
            && (resumed.ResumedAt? ==>
                  && s.pending.Some? && s.pending.value.checkpoint.Some?
                  && resumed.phase == s.pending.value.checkpoint.value.phase
                  && after.lastWritten == after.stored == s.pending
                  && HoldOf(after) == NoHold)
  {
    EveryRunIsValid(start, calls);
    RestorationIsResumed(Run(start, calls), live, erases);
  }

  lemma RestorationIsResumed(s: Resumption, live: LiveFacts, erases: bool)
    requires Valid(s)
    ensures var (after, resumed) := AdvanceResumption(s, live, erases);
            && Valid(after) && !resumed.NoCheckpoint? && !resumed.UnknownPhase?
            && (resumed.ResumedAt? ==>
                  && s.pending.Some? && s.pending.value.checkpoint.Some?
                  && resumed.phase == s.pending.value.checkpoint.value.phase
                  && after.lastWritten == after.stored == s.pending
                  && HoldOf(after) == NoHold)
  {
    var call := CallAdvance(live, erases);
    CallKeepsValid(s, call);
    if s.pending.Some? && HandedBack(s, call).Some? {
      HandedBackIsPending(s, call);
      SettledIsValid(Advance(s, live, erases).0);
      RestoringSettles(s, live, erases);
    } else {
      NotRestoringResumesNothing(s, live, erases);
    }
  }

  lemma RestoringSettles(s: Resumption, live: LiveFacts, erases: bool)
    requires s.pending.Some? && HandedBack(s, CallAdvance(live, erases)).Some?
    requires var document := HandedBack(s, CallAdvance(live, erases)).value.document;
             document.checkpoint.Some? && IsResumable(document.checkpoint.value.phase)
    ensures var restoration := HandedBack(s, CallAdvance(live, erases)).value;
            AdvanceResumption(s, live, erases)
            == (Settle(Advance(s, live, erases).0),
                ResumedAt(restoration.document.checkpoint.value.phase, restoration.gsxRestartedSinceSave))
  {
  }

  lemma NotRestoringResumesNothing(s: Resumption, live: LiveFacts, erases: bool)
    requires s.pending.None? || HandedBack(s, CallAdvance(live, erases)).None?
    ensures AdvanceResumption(s, live, erases)
            == (if s.pending.None? then s else Take(s, CallAdvance(live, erases)), NothingToResume)
  {
  }

  lemma SettledIsValid(s: Resumption)
    requires Valid(s) && s.pending.Some?
    ensures Valid(Settle(s)) && Settle(s).lastWritten == Settle(s).stored == s.pending && HoldOf(Settle(s)) == NoHold
  {
  }

  /** A pending document is never overwritten: while one is held, saving leaves everything as it is. */
  lemma HeldDocumentIsNotOverwritten(start: Resumption, calls: seq<Call>, saving: Saving, writes: bool)
    requires Valid(start)
    ensures var s := Run(start, calls);
            var after := SaveTurnaround(s, saving, writes);
            && Valid(after)
            && (s.pending.Some? ==> after == s && after.stored == s.pending)
            && (after != s ==> saving.IsDue() && writes && after.stored == Some(saving.document) == after.lastWritten)
  {
    EveryRunIsValid(start, calls);
  }
}
