/**
  The navigator as the object it is: fields that each method changes in place.  Every method is proved to
  leave what the specification of the same name leaves.
*/
module MenuNavigator {
  import opened Options
  import opened Json
  import opened GsxRemote
  import opened NavigatorModel

  class GsxMenuNavigator {
    const remoteState: GsxRemoteState
    var pending: seq<Request>
    var menuOwner: MenuOwner
    var menuRequestedMs: Option<int>
    var lastActionMs: int
    var watchedSig: Option<string>
    var watchedSinceMs: int
    var resyncCount: int
    var resyncPending: bool
    var discardedSig: string
    var intent: Intent
    var intentSinceMs: int
    var reposition: Walk
    var requestsHeld: bool
    var sendRefused: bool
    // The wire: how many more sends it takes in this pass.
    var willAccept: nat
    ghost var log: seq<Happening>

    ghost function View(): Navigator
      reads this
    {
      Navigator(pending, menuOwner, menuRequestedMs, lastActionMs, watchedSig, watchedSinceMs, resyncCount, resyncPending,
                discardedSig, intent, intentSinceMs, reposition, requestsHeld, sendRefused, willAccept, log)
    }

    constructor (remoteState: GsxRemoteState)
      ensures this.remoteState == remoteState && View() == START
    {
      this.remoteState := remoteState;
      pending, menuOwner, menuRequestedMs, lastActionMs := [], Nobody, None, 0;
      watchedSig, watchedSinceMs, resyncCount, resyncPending, discardedSig := None, 0, 0, false, "";
      intent, intentSinceMs, reposition := NoIntent, 0, Idle;
      requestsHeld, sendRefused, willAccept, log := false, false, 0, [];
    }

    // ----- Sending -----

    method BeginPass(pass: Pass)
      modifies this
      ensures View() == NavigatorModel.BeginPass(old(View()), pass)
    {
      sendRefused := false;
      willAccept := pass.accepts;
    }

    method SendOne(sent: Happening) returns (accepted: bool)
      requires sent.Sent?
      modifies this
      ensures View() == NavigatorModel.Send(old(View()), sent) && accepted == CanSend(old(View()))
    {
      if sendRefused {
        return false;
      }
      accepted := willAccept > 0;
      sendRefused := !accepted;
      if accepted {
        willAccept := willAccept - 1;
        if AsksGsxForAMenu(sent.verb) {
          menuRequestedMs := Some(sent.at);
        }
        log := log + [sent];
      }
    }

    method SendCommand(verb: Verb, now: int) returns (accepted: bool)
      modifies this
      ensures View() == NavigatorModel.Send(old(View()), Command(verb, now, remoteState.fields))
      ensures accepted == CanSend(old(View()))
    {
      accepted := SendOne(Command(verb, now, remoteState.fields));
    }

    method OpenIntent(wanted: Intent, now: int)
      modifies this
      ensures View() == NavigatorModel.OpenIntent(old(View()), wanted, now)
    {
      if wanted != RepositionIntent {
        reposition := Idle;
      }
      intent := wanted;
      intentSinceMs := now;
    }

    predicate HasActiveIntent(now: int)
      reads this
      ensures HasActiveIntent(now) <==> NavigatorModel.HasActiveIntent(View(), now)
    {
      intent != NoIntent && now - intentSinceMs < INTENT_TTL_MS
    }

    // ----- Whose menu is on screen -----

    method TrackMenuOwner(now: int)
      modifies this
      ensures View() == NavigatorModel.TrackMenuOwner(old(View()), remoteState.fields, now)
    {
      if !remoteState.fields.menu.shown {
        ReleaseTheMenuOwner(now);
      } else if menuOwner == Nobody {
        menuOwner := if menuRequestedMs.Some? && now - menuRequestedMs.value < MENU_OWNERSHIP_WINDOW_MS then Client else Pilot;
        log := log + [FirstSeen(now, menuOwner)];
      }
    }

    method ReleaseTheMenuOwner(now: int)
      requires !remoteState.fields.menu.shown
      modifies this
      ensures View() == NavigatorModel.TrackMenuOwner(old(View()), remoteState.fields, now)
    {
      if menuOwner != Nobody {
        log := log + [Hidden(now, menuOwner)];
      }
      if menuOwner == Client {
        menuRequestedMs := Some(now);
      }
      menuOwner := Nobody;
    }

    // ----- A menu that does not move -----

    method CloseStaleMenu(now: int)
      modifies this
      ensures View() == NavigatorModel.CloseStaleMenu(old(View()), remoteState.fields, now)
    {
      watchedSinceMs := now;
      var accepted := SendCommand(MenuClose, now);
      if accepted {
        lastActionMs := now;
      }
    }

    method AskForASnapshot(now: int)
      modifies this
      ensures View() == NavigatorModel.AskForASnapshot(old(View()), remoteState.fields, now)
    {
      watchedSinceMs := now;
      var accepted := SendCommand(StateGet, now);
      if accepted {
        CountTheResync(now);
      }
    }

    method CountTheResync(now: int)
      modifies this
      ensures View() == old(View()).(resyncCount := old(resyncCount) + 1, resyncPending := true, lastActionMs := now)
    {
      resyncCount := resyncCount + 1;
      resyncPending := true;
      lastActionMs := now;
    }

    method FindToggleAwaiting(now: int) returns (toggle: Option<Request>)
      ensures toggle == FirstToggleAwaiting(pending, now)
    {
      for i := 0 to |pending|
        invariant FirstToggleAwaiting(pending, now) == FirstToggleAwaiting(pending[i..], now)
      {
        if pending[i].IsAToggleAwaitingGsx(now) {
          return Some(pending[i]);
        }
      }
      return None;
    }

    method HoldsForAnUntakenToggle(now: int) returns (holds: bool)
      ensures holds == NavigatorModel.HoldsForAnUntakenToggle(View(), now)
    {
      if menuOwner != Client {
        return false;
      }
      var toggle := FindToggleAwaiting(now);
      return toggle.Some?;
    }

    method IsHoldingARequestBehindAToggle(now: int) returns (holding: bool)
      ensures holding == (AnyHeldBehindAToggle(pending) && NavigatorModel.HoldsForAnUntakenToggle(View(), now))
    {
      var waits := false;
      for i := 0 to |pending|
        invariant waits <==> exists j | 0 <= j < i :: pending[j].heldBehindAToggle
      {
        waits := waits || pending[i].heldBehindAToggle;
      }
      if !waits {
        return false;
      }
      holding := HoldsForAnUntakenToggle(now);
    }

    method DiscardStuckMenu(now: int, sig: string)
      modifies this
      ensures View() == NavigatorModel.DiscardStuckMenu(old(View()), remoteState.fields, now, sig)
    {
      if sig == discardedSig {
        return;
      }
      if ContainsFold(remoteState.fields.menu.title, PUSHBACK_DIRECTION_TEXT) {
        discardedSig := sig;
        return;
      }
      if !HasActiveIntent(now) || menuOwner != Client {
        return;
      }
      var holding := IsHoldingARequestBehindAToggle(now);
      if holding {
        return;
      }
      watchedSinceMs := now;
      var accepted := SendCommand(MenuClose, now);
      if accepted {
        discardedSig := sig;
        lastActionMs := now;
      }
    }

    method MaybeResyncStalledMenu(now: int, pass: Pass)
      modifies this
      ensures View() == NavigatorModel.MaybeResyncStalledMenu(old(View()), remoteState.fields, now, pass)
    {
      var sig := MenuSignature(remoteState.fields.menu);
      if watchedSig != Some(sig) {
        watchedSig, watchedSinceMs, resyncCount := Some(sig), now, 0;
        return;
      }
      if now - watchedSinceMs < RESYNC_DELAY_MS {
        return;
      }
      var walking := reposition == Opening || reposition == PickingRoot || reposition == AwaitingSubmenu;
      if menuOwner == Client && !walking && HasActiveIntent(now) && ContainsFold(remoteState.fields.menu.title, SELECT_POSITION_TEXT) {
        CloseStaleMenu(now);
        return;
      }
      if !pass.picksUnasked && !HasActiveIntent(now) {
        return;
      }
      if resyncCount >= MAX_RESYNCS {
        DiscardStuckMenu(now, sig);
      } else {
        AskForASnapshot(now);
      }
    }

    method PickEntry(now: int) returns (picked: bool)
      modifies this
      ensures View() == NavigatorModel.PickEntry(old(View()), remoteState.fields, now)
      ensures picked == (!old(requestsHeld) && CanSend(old(View())))
    {
      if requestsHeld {
        return false;
      }
      picked := SendCommand(MenuPick, now);
      if picked {
        lastActionMs := now;
      }
    }

    method PickStage(now: int, pass: Pass)
      modifies this
      ensures View() == NavigatorModel.PickStage(old(View()), remoteState.fields, now, pass)
    {
      if pass.picks {
        var picked := PickEntry(now);
      }
      reposition := pass.walk;
      if pass.opensIntent {
        OpenIntent(ServiceIntent, now);
      }
    }

    method HandleMenu(now: int, pass: Pass)
      modifies this
      ensures View() == NavigatorModel.HandleMenu(old(View()), remoteState.fields, now, pass)
    {
      TrackMenuOwner(now);
      if !remoteState.fields.menu.shown {
        watchedSig := None;
        return;
      }
      MaybeResyncStalledMenu(now, pass);
      PickStage(now, pass);
    }

    // ----- The queue -----

    static method RestartClocks(queue: seq<Request>, now: int) returns (restarted: seq<Request>)
      ensures restarted == AllRearmed(queue, now)
    {
      restarted := queue;
      for i := 0 to |queue|
        invariant |restarted| == |queue|
        invariant forall j | 0 <= j < |queue| :: restarted[j] == if j < i then Rearmed(queue[j], now) else queue[j]
      {
        if !queue[i].WasSent() {
          restarted := restarted[i := queue[i].(armedMs := now)];
        }
      }
      assert restarted == AllRearmed(queue, now);
    }

    method RestartTheUnsentClocks(now: int)
      modifies this
      ensures View() == NavigatorModel.RestartTheUnsentClocks(old(View()), now)
    {
      if menuOwner != Pilot {
        return;
      }
      pending := RestartClocks(pending, now);
    }

    static method Settle(queue: seq<Request>, remote: Remote, now: int) returns (kept: seq<Request>, ghost drops: seq<Happening>)
      ensures kept == Kept(queue, ReasonsAt(remote, now)) && drops == Drops(queue, now, ReasonsAt(remote, now))
    {
      kept, drops := [], [];
      var reasonFor := ReasonsAt(remote, now);
      for i := 0 to |queue|
        invariant kept + Kept(queue[i..], reasonFor) == Kept(queue, reasonFor)
        invariant drops + Drops(queue[i..], now, reasonFor) == Drops(queue, now, reasonFor)
      {
        var reason := reasonFor(queue[i]);
        assert queue[i..][1..] == queue[i + 1..];
        FirstIsSettled(queue[i..], now, reasonFor);
        if reason == Keep {
          Regroup(kept, [queue[i]], Kept(queue[i + 1..], reasonFor));
          kept := kept + [queue[i]];
        } else {
          Regroup(drops, [Dropped(now, queue[i].GetKey(), reason)], Drops(queue[i + 1..], now, reasonFor));
          drops := drops + [Dropped(now, queue[i].GetKey(), reason)];
        }
      }
    }

    method EraseTheSettled(now: int)
      modifies this
      ensures View() == DropTheSettled(old(View()), remoteState.fields, now)
    {
      ghost var drops;
      pending, drops := Settle(pending, remoteState.fields, now);
      log := log + drops;
    }

    method MarkTheRefusedToggles(now: int)
      modifies this
      ensures View() == NavigatorModel.MarkTheRefusedToggles(old(View()), remoteState.fields, now)
    {
      ghost var was := View();
      for i := 0 to |pending|
        invariant |pending| == |was.pending| && View() == was.(pending := pending)
        invariant forall j | 0 <= j < |pending| ::
                    pending[j] == if j < i then Marked(was.pending[j], remoteState.fields, now) else was.pending[j]
      {
        if WasRefused(pending[i], remoteState.fields, now) {
          pending := pending[i := pending[i].(refused := true)];
        }
      }
      assert pending == AllMarked(was.pending, remoteState.fields, now);
    }

    method FindDue(now: int) returns (due: nat)
      ensures due == FirstDue(pending, now)
    {
      due := 0;
      while due < |pending| && !pending[due].IsDueToSend(now)
        invariant due <= |pending|
        invariant FirstDue(pending, now) == due + FirstDue(pending[due..], now)
      {
        due := due + 1;
      }
    }

    method Deliver(now: int, i: nat)
      requires i < |pending|
      modifies this
      ensures View() == NavigatorModel.Deliver(old(View()), remoteState.fields, now, i)
    {
      var r := pending[i];
      var accepted := SendOne(Delivery(r, now, remoteState.fields));
      if !accepted {
        return;
      }
      lastActionMs := now;
      pending := pending[i := Stamped(r, now, remoteState.fields)];
      var walking := reposition == Opening || reposition == PickingRoot || reposition == AwaitingSubmenu;
      if pending[i].attempts == 1 && r.verb == ServiceTrigger && !walking {
        OpenIntent(ServiceIntent, now);
      }
    }

    method SendRequest(now: int, i: nat)
      requires i < |pending|
      modifies this
      ensures View() == NavigatorModel.SendRequest(old(View()), remoteState.fields, now, i)
    {
      if remoteState.fields.menu.shown {
        if menuOwner == Pilot {
          pending := pending[i := pending[i].(heldBehindThePilotsMenu := true)];
          return;
        }
        var accepted := SendCommand(MenuClose, now);
        if !accepted {
          return;
        }
        watchedSig := None;
      }
      Deliver(now, i);
    }

    method ServeTheQueue(now: int)
      modifies this
      ensures View() == NavigatorModel.ServeTheQueue(old(View()), remoteState.fields, now)
    {
      var due := FindDue(now);
      if due == |pending| {
        return;
      }
      var holds := HoldsForAnUntakenToggle(now);
      if holds {
        pending := pending[due := pending[due].(heldBehindAToggle := true)];
        return;
      }
      SendRequest(now, due);
    }

    method PumpRequests(now: int, pass: Pass)
      modifies this
      ensures View() == NavigatorModel.PumpRequests(old(View()), remoteState.fields, now, pass)
    {
      TrackMenuOwner(now);
      RestartTheUnsentClocks(now);
      EraseTheSettled(now);
      MarkTheRefusedToggles(now);
      if requestsHeld || pass.panelWaits || resyncPending || now - lastActionMs < MENU_SETTLE_MS {
        return;
      }
      ServeTheQueue(now);
    }

    method FindQueued(key: Key) returns (i: nat)
      ensures i == IndexOf(pending, key)
    {
      i := 0;
      while i < |pending| && pending[i].GetKey() != key
        invariant i <= |pending|
        invariant IndexOf(pending, key) == i + IndexOf(pending[i..], key)
      {
        i := i + 1;
      }
    }

    method Queue(armed: Request)
      modifies `pending
      ensures pending == Requeued(old(pending), armed)
    {
      var request := armed;
      var i := FindQueued(armed.GetKey());
      if i < |pending| {
        var same := pending[i];
        request := request.(lastSentMs := same.lastSentMs, attempts := same.attempts, refused := same.refused,
                            messagesAtSend := same.messagesAtSend);
        pending := pending[..i] + pending[i + 1..];
      }
      pending := pending + [request];
    }

    method ArmRequest(now: int, pass: Pass, armed: Request)
      modifies this
      ensures View() == NavigatorModel.ArmRequest(old(View()), remoteState.fields, now, pass, armed)
    {
      BeginPass(pass);
      Queue(armed);
      PumpRequests(now, pass);
    }

    // ----- What the rest of the program calls -----

    method TriggerService(now: int, pass: Pass, serviceId: string, firesWhileUnderway: bool)
      modifies this
      ensures View() == NavigatorModel.TriggerService(old(View()), remoteState.fields, now, pass, serviceId, firesWhileUnderway)
    {
      OpenIntent(ServiceIntent, now);
      ArmRequest(now, pass, NewRequest(ServiceTrigger, Obj(map["service" := Str(serviceId)]), serviceId, serviceId, now, firesWhileUnderway));
    }

    method RequestDepartureClearance(now: int, pass: Pass)
      modifies this
      ensures View() == NavigatorModel.RequestDepartureClearance(old(View()), remoteState.fields, now, pass)
    {
      OpenIntent(ServiceIntent, now);
      ArmRequest(now, pass, NewRequest(ServiceTrigger, Obj(map["service" := Str("Departure")]), "Departure", "", now, false));
    }

    method RequestSimbriefLoad(now: int, pass: Pass)
      modifies this
      ensures View() == NavigatorModel.RequestSimbriefLoad(old(View()), remoteState.fields, now, pass)
    {
      ArmRequest(now, pass, NewRequest(CommandRun, Obj(map["command" := Str("RELOAD_SIMBRIEF")]), "RELOAD_SIMBRIEF", "", now, false));
    }

    method ToggleMenu(now: int)
      modifies this
      ensures View() == NavigatorModel.ToggleMenu(old(View()), remoteState.fields, now)
    {
      if requestsHeld || remoteState.fields.menu.shown {
        return;
      }
      var accepted := SendCommand(MenuToggle, now);
      if accepted {
        lastActionMs := now;
      }
    }

    method RepositionAircraft(now: int, pass: Pass)
      modifies this
      ensures View() == NavigatorModel.RepositionAircraft(old(View()), remoteState.fields, now, pass)
    {
      if reposition != Idle {
        return;
      }
      OpenIntent(RepositionIntent, now);
      reposition := Opening;
      if !requestsHeld {
        BeginPass(pass);
        ToggleMenu(now);
      }
    }

    method CompleteService(now: int, pass: Pass)
      modifies this
      ensures View() == NavigatorModel.CompleteService(old(View()), remoteState.fields, now, pass)
    {
      OpenIntent(ServiceIntent, now);
      if !requestsHeld {
        BeginPass(pass);
        ToggleMenu(now);
      }
    }

    method PickNowOrArm(now: int, pass: Pass) returns (picked: bool)
      modifies this
      ensures View() == NavigatorModel.PickNowOrArm(old(View()), remoteState.fields, now, pass)
      ensures picked == (remoteState.fields.menu.shown && pass.picks && !old(requestsHeld) && pass.accepts > 0)
    {
      BeginPass(pass);
      picked := false;
      if remoteState.fields.menu.shown && pass.picks {
        picked := PickEntry(now);
      }
      if picked || sendRefused {
        return;
      }
      OpenIntent(ServiceIntent, now);
      ToggleMenu(now);
    }

    method DisableGsxMenu(now: int, pass: Pass)
      modifies this
      ensures View() == NavigatorModel.DisableGsxMenu(old(View()), remoteState.fields, now, pass)
    {
      BeginPass(pass);
      TrackMenuOwner(now);
      if menuOwner != Pilot {
        var accepted := SendCommand(MenuClose, now);
        if !accepted {
          return;
        }
      }
      reposition := Idle;
      intent := NoIntent;
    }

    method OnMenuChanged(now: int, pass: Pass)
      modifies this
      ensures View() == NavigatorModel.OnMenuChanged(old(View()), remoteState.fields, now, pass)
    {
      BeginPass(pass);
      HandleMenu(now, pass);
      PumpRequests(now, pass);
    }

    method OnSnapshot(now: int, pass: Pass)
      modifies this
      ensures View() == NavigatorModel.OnSnapshot(old(View()), remoteState.fields, now, pass)
    {
      resyncPending := false;
      OnMenuChanged(now, pass);
    }

    method ForgetTheMenu()
      modifies this
      ensures View() == old(View()).(watchedSig := None, discardedSig := "", menuOwner := Nobody, menuRequestedMs := None)
    {
      watchedSig := None;
      discardedSig := "";
      menuOwner := Nobody;
      menuRequestedMs := None;
    }

    method ForgetTheIntents()
      modifies this
      ensures View() == old(View()).(reposition := Idle, intent := NoIntent, intentSinceMs := 0)
    {
      reposition := Idle;
      intent := NoIntent;
      intentSinceMs := 0;
    }

    method ForgetTheRequests()
      modifies this
      ensures View() == old(View()).(resyncCount := 0, resyncPending := false, lastActionMs := 0, pending := [])
    {
      resyncCount := 0;
      resyncPending := false;
      lastActionMs := 0;
      pending := [];
    }

    method Clear()
      modifies this
      ensures View() == Cleared(old(View()))
    {
      ForgetTheIntents();
      ForgetTheMenu();
      ForgetTheRequests();
    }

    method Reset(now: int)
      modifies this
      ensures View() == NavigatorModel.Reset(old(View()), now)
    {
      Clear();
      log := log + [Forgotten(now)];
    }

    // ----- Saving and restoring -----

    method TakeMemory() returns (memory: Json)
      ensures memory == NavigatorModel.TakeMemory(View())
    {
      var queue := [];
      for i := 0 to |pending|
        invariant |queue| == i
        invariant forall j | 0 <= j < i :: queue[j] == RequestToJson(pending[j])
      {
        queue := queue + [RequestToJson(pending[i])];
      }
      assert queue == QueueToJson(pending);
      memory := Arr(queue);
    }

    static method ReadQueue(items: seq<Json>, now: int) returns (queue: seq<Request>)
      ensures queue == PendingFrom(items, Reader(now))
    {
      queue := [];
      for i := 0 to |items|
        invariant queue == PendingFrom(items[..i], Reader(now))
      {
        assert items[..i + 1][..i] == items[..i];
        var request := RequestFromJson(items[i], now);
        if request.Some? {
          var at := 0;
          while at < |queue| && queue[at].GetKey() != request.value.GetKey()
            invariant at <= |queue|
            invariant IndexOf(queue, request.value.GetKey()) == at + IndexOf(queue[at..], request.value.GetKey())
          {
            at := at + 1;
          }
          if at == |queue| {
            queue := queue + [request.value];
          }
        }
      }
      assert items[..|items|] == items;
    }

    method RestoreMemory(memory: Json, now: int)
      modifies this
      ensures View() == NavigatorModel.RestoreMemory(old(View()), memory, now)
    {
      Clear();
      var queue := ReadQueue(ItemsOf(memory), now);
      log := log + [Restored(now, SentCounts(queue))];
      pending := RestartClocks(queue, now);
      if pending != [] {
        OpenIntent(ServiceIntent, now);
      }
    }
  }
}
