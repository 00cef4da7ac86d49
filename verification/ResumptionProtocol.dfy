/** The store, the resumption and the runtime's part in it as the objects they are. */
module ResumptionProtocol {
  import opened Options
  import opened TurnaroundPhases
  import opened TurnaroundDocuments
  import opened KeyJudgement
  import opened Resumptions

  /** A store whose writes and erases succeed or fail as they are told to. */
  class TurnaroundCheckpointStore {
    var document: Option<TurnaroundDocument>

    constructor (left: Option<TurnaroundDocument>)
      ensures document == left
    {
      document := left;
    }

    method Read() returns (read: Option<TurnaroundDocument>)
      ensures read == document
    {
      read := document;
    }

    method Write(written: TurnaroundDocument, succeeds: bool) returns (ok: bool)
      modifies this
      ensures ok == (succeeds && written.CanBeReadBack())
      ensures document == if ok then Some(written) else old(document)
    {
      if !written.CanBeReadBack() || !succeeds {
        return false;
      }
      document := Some(written);
      return true;
    }

    method Erase(succeeds: bool) returns (ok: bool)
      modifies this
      ensures ok == succeeds
      ensures document == if ok then None else old(document)
    {
      if succeeds {
        document := None;
      }
      return succeeds;
    }
  }

  class TurnaroundResumption {
    const store: TurnaroundCheckpointStore?
    var pending: Option<TurnaroundDocument>
    var lastWritten: Option<TurnaroundDocument>
    var stage: Stage
    var restoringHold: Hold
    var couatlDiffers: bool
    var releasedRepositioned: bool
    var pilotResumed: bool
    var discardPending: bool

    function View(): Resumption
      reads this, store
    {
      Resumption(store != null, if store == null then None else store.document, pending, lastWritten, stage, restoringHold,
                 couatlDiffers, releasedRepositioned, pilotResumed, discardPending)
    }

    constructor (store: TurnaroundCheckpointStore?)
      ensures this.store == store
      ensures View() == Started(store != null, if store == null then None else store.document)
    {
      this.store := store;
      pending, lastWritten, stage, restoringHold := None, None, Idle, AwaitingGsxReadings;
      couatlDiffers, releasedRepositioned, pilotResumed, discardPending := false, false, false, false;
    }

    method Forget()
      modifies this
      ensures View() == Resumptions.Forget(old(View()))
    {
      pending := None;
      releasedRepositioned := false;
      stage := Idle;
      couatlDiffers := false;
      pilotResumed := false;
    }

    method Load(erases: bool)
      modifies this, store
      ensures View() == Resumptions.Load(old(View()), erases)
    {
      Forget();
      if store == null {
        return;
      }
      if discardPending {
        var erased := store.Erase(erases);
        if !erased {
          return;
        }
      }
      pending := store.Read();
      if pending.Some? && !pending.value.HasAnythingToRead() {
        pending := None;
      }
      if pending.Some? {
        stage := Judging;
      }
    }

    method Discard(erases: bool)
      modifies this, store
      ensures View() == Resumptions.Discard(old(View()), erases)
    {
      Forget();
      lastWritten := None;
      if store != null {
        var erased := store.Erase(erases);
        discardPending := !erased;
      }
    }

    method RetryPendingDiscard(erases: bool)
      requires discardPending ==> store != null
      modifies this, store
      ensures View() == Resumptions.RetryPendingDiscard(old(View()), erases)
    {
      if discardPending {
        var erased := store.Erase(erases);
        discardPending := !erased;
      }
    }

    method AnswerResume()
      modifies this
      ensures View() == Resumptions.AnswerResume(old(View()))
    {
      if stage != Deciding {
        return;
      }
      stage := Restoring;
      pilotResumed := true;
      restoringHold := AwaitingGsxReadings;
    }

    method EnterJudgedStage(differs: bool)
      modifies this
      ensures View() == Resumptions.EnterJudgedStage(old(View()), differs)
    {
      couatlDiffers := differs;
      restoringHold := AwaitingGsxReadings;
      stage := if couatlDiffers then Deciding else Restoring;
    }

    method NoteCouatlChangedWhileRestoring()
      modifies this
      ensures View() == Resumptions.NoteCouatlChanged(old(View()))
    {
      couatlDiffers := true;
      if !pilotResumed {
        stage := Deciding;
      }
    }

    method Judge(live: TurnaroundKey, erases: bool)
      modifies this, store
      ensures View() == Resumptions.JudgePending(old(View()), live, erases)
    {
      if pending.None? {
        return;
      }
      var verdict := KeyJudgement.Judge(pending.value.key, live, pending.value.PhaseOf());
      if verdict == NotYetJudgeable {
        return;
      }
      if verdict == Different {
        Discard(erases);
        return;
      }
      if pending.value.checkpoint.None? {
        Forget();
        releasedRepositioned := verdict == Same;
        return;
      }
      if stage == Judging {
        EnterJudgedStage(verdict == OnlyCouatlDiffers);
      } else if stage == Restoring && verdict == OnlyCouatlDiffers {
        NoteCouatlChangedWhileRestoring();
      }
    }

    method Advance(live: LiveFacts, erases: bool) returns (advancement: Advancement)
      modifies this, store
      ensures (View(), advancement) == Resumptions.Advance(old(View()), live, erases)
    {
      Judge(live.key, erases);
      advancement := Advancement(None, releasedRepositioned);
      releasedRepositioned := false;
      if pending.None? || stage != Restoring {
        return;
      }
      restoringHold := if live.readingsArrived then AwaitingAircraft else AwaitingGsxReadings;
      if !live.readingsArrived || !live.aircraftReachable {
        return;
      }
      advancement := Advancement(Some(Restoration(pending.value, couatlDiffers)), pending.value.repositioned && !couatlDiffers);
    }

    method Settle()
      modifies this
      ensures View() == Resumptions.Settle(old(View()))
    {
      lastWritten := pending;
      Forget();
    }

    method Save(document: TurnaroundDocument, writes: bool)
      modifies this, store
      ensures View() == Resumptions.Save(old(View()), document, writes)
    {
      if store == null || lastWritten == Some(document) {
        return;
      }
      var written := store.Write(document, writes);
      if !written {
        return;
      }
      discardPending := false;
      lastWritten := Some(document);
      Forget();
    }
  }

  /** The part of the runtime that drives the resumption. */
  class IntegratorRuntime {
    const resumption: TurnaroundResumption

    constructor (resumption: TurnaroundResumption)
      ensures this.resumption == resumption
    {
      this.resumption := resumption;
    }

    method SaveTurnaround(saving: Saving, writes: bool)
      modifies resumption, resumption.store
      ensures resumption.View() == Resumptions.SaveTurnaround(old(resumption.View()), saving, writes)
    {
      if !saving.driving || HoldOf(resumption.View()) != NoHold || Rank(saving.phase) < Rank(RepositionAircraft) {
        return;
      }
      if !IsIdentified(saving.document.key) {
        return;
      }
      resumption.Save(saving.document, writes);
    }

    method RestartFlow(erases: bool)
      modifies resumption, resumption.store
      ensures resumption.View() == Resumptions.Forget(Resumptions.Discard(old(resumption.View()), erases))
    {
      resumption.Discard(erases);
      resumption.Forget();
    }

    method RestoreSavedTurnaround(restoration: Restoration, erases: bool) returns (resumed: Resumed)
      modifies resumption, resumption.store
      ensures (resumption.View(), resumed) == Resumptions.RestoreSavedTurnaround(old(resumption.View()), restoration, erases)
    {
      match restoration.document.checkpoint {
        case None =>
          resumption.Discard(erases);
          resumed := NoCheckpoint;
        case Some(checkpoint) =>
          if IsResumable(checkpoint.phase) {
            resumption.Settle();
            resumed := ResumedAt(checkpoint.phase, restoration.gsxRestartedSinceSave);
          } else {
            RestartFlow(erases);
            resumed := UnknownPhase;
          }
      }
    }

    method AdvanceResumption(live: LiveFacts, erases: bool) returns (resumed: Resumed)
      modifies resumption, resumption.store
      ensures (resumption.View(), resumed) == Resumptions.AdvanceResumption(old(resumption.View()), live, erases)
    {
      resumed := NothingToResume;
      if resumption.pending.None? {
        return;
      }
      var advancement := resumption.Advance(live, erases);
      if advancement.restoration.Some? {
        resumed := RestoreSavedTurnaround(advancement.restoration.value, erases);
      }
    }
  }
}
