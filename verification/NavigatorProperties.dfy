/** What the invariant of every run says about its queue, its record, its reconnections and its saves. */
module NavigatorProperties {
  import opened Options
  import opened Json
  import opened GsxRemote
  import opened NavigatorModel
  import opened NavigatorHistory
  import opened NavigatorRuns

  // ----- Runs -----

  /** The queue of every run: no twins, at most three attempts, and only a request sent once or twice is refused. */
  lemma QueueOfEveryRun(steps: seq<Timed>)
    requires IsOrdered(steps)
    ensures var queue := Run(steps).nav.pending;
            && (forall i, j | 0 <= i < j < |queue| :: (queue[i].verb, queue[i].name) != (queue[j].verb, queue[j].name))
            && (forall r | r in queue :: 0 <= r.attempts <= MAX_TRIGGER_ATTEMPTS)
            && (forall r | r in queue && r.refused :: 1 <= r.attempts < MAX_TRIGGER_ATTEMPTS)
  {
    EveryRunHolds(steps);
    var s := Summarize(Run(steps).nav.log);
    var queue := Run(steps).nav.pending;
    forall r | r in queue
      ensures 0 <= r.attempts <= MAX_TRIGGER_ATTEMPTS && (r.refused ==> 1 <= r.attempts < MAX_TRIGGER_ATTEMPTS)
    {
      var i :| 0 <= i < |queue| && queue[i] == r;
      assert IsInStep(queue[i], s.open, s.sentBeforeTheRestore, Run(steps).clock, Run(steps).remote.messagesShown);
    }
    forall i, j | 0 <= i < j < |queue| ensures (queue[i].verb, queue[i].name) != (queue[j].verb, queue[j].name) {
      assert queue[i].GetKey() != queue[j].GetKey();
    }
  }

  /** In every run a toggle is sent again only after a message, three seconds after its last send, and at most twice. */
  lemma TogglesOfEveryRun(steps: seq<Timed>, key: Key, i: nat, j: nat)
    requires IsOrdered(steps) && i < j < |Run(steps).nav.log|
    requires IsOpenSend(Run(steps).nav.log[..j], key, i)
    requires IsSendOf(Run(steps).nav.log[j], key) && Run(steps).nav.log[j].toggle
    ensures var log := Run(steps).nav.log;
            && log[j].at - log[i].at >= REFUSAL_SETTLE_MS
            && (exists k :: i < k < j && log[k].MessageShown?)
            && SendsOf(log, key) <= MAX_TRIGGER_ATTEMPTS
  {
    EveryRunHolds(steps);
    ToggleIsNeverResentBlindly(Run(steps).nav.log, key, i, j);
    NoRequestIsSentMoreThanThreeTimes(Run(steps).nav.log, key);
  }

  /**
    In every run the queue remembers every send: a queued request counts exactly the sends on record since it was
    last ended, those before a restart included, and knows when the last one left; and no request with a send on
    record is missing from the queue.  Asking again, however often, forgets none.
  */
  lemma QueueRemembersEverySend(steps: seq<Timed>)
    requires IsOrdered(steps)
    ensures var nav := Run(steps).nav;
            && (forall r | r in nav.pending :: r.attempts == SendsOf(nav.log, r.GetKey()))
            && (forall r, j: nat | r in nav.pending && IsOpenSend(nav.log, r.GetKey(), j) :: r.lastSentMs == nav.log[j].at)
            && (forall key :: SendsOf(nav.log, key) > 0 ==> key in Keys(nav.pending))
  {
    EveryRunHolds(steps);
    var nav, s := Run(steps).nav, Summarize(Run(steps).nav.log);
    forall r | r in nav.pending
      ensures r.attempts == SendsOf(nav.log, r.GetKey())
      ensures forall j: nat | IsOpenSend(nav.log, r.GetKey(), j) :: r.lastSentMs == nav.log[j].at
    {
      var i :| 0 <= i < |nav.pending| && nav.pending[i] == r;
      assert IsInStep(nav.pending[i], s.open, s.sentBeforeTheRestore, Run(steps).clock, Run(steps).remote.messagesShown);
      SummaryCountsTheSends(nav.log, r.GetKey());
      AttemptsAreTheSends(r, s, Run(steps).clock, Run(steps).remote.messagesShown);
      forall j: nat | IsOpenSend(nav.log, r.GetKey(), j) ensures r.lastSentMs == nav.log[j].at {
        RecordedSendIsOpen(nav.log, r.GetKey(), j);
      }
    }
    forall key | SendsOf(nav.log, key) > 0 ensures key in Keys(nav.pending) {
      SummaryCountsTheSends(nav.log, key);
      assert key in s.open.Keys + s.sentBeforeTheRestore.Keys;
    }
  }

  /** A request as it is but for the marks that say what it is held behind. */
  function Unmarked(r: Request): Request {
    r.(heldBehindThePilotsMenu := false, heldBehindAToggle := false)
  }

  /** The wire takes what a request needs: one send, and one more before it to close the client's menu. */
  predicate NothingHoldsTheQueue(n: Navigator, remote: Remote, now: int) {
    && !HoldsForAnUntakenToggle(n, now) && !n.sendRefused
    && if remote.menu.shown then n.menuOwner != Pilot && n.willAccept >= 2 else n.willAccept >= 1
  }

  /** The request waits to be sent: it never was, GSX refused it, or it is no toggle and left twenty seconds ago. */
  predicate IsWaiting(r: Request, now: int) {
    r.attempts <= 0 || r.refused || (!r.UndoneByASecondSend() && now - r.lastSentMs >= 20000)
  }

  lemma DueRequestsAreTheWaitingOnes(pending: seq<Request>, now: int)
    ensures var i := FirstDue(pending, now);
            && (i < |pending| <==> exists r | r in pending :: IsWaiting(r, now))
            && (i < |pending| ==> IsWaiting(pending[i], now) && forall j | 0 <= j < i :: !IsWaiting(pending[j], now))
  {
    var i := FirstDue(pending, now);
    if i < |pending| {
      assert pending[i] in pending;
    }
  }

  /** The close of the menu that a request goes over, when one is on screen. */
  function CloseFirst(remote: Remote, now: int): seq<Happening> {
    if remote.menu.shown then [Command(MenuClose, now, remote)] else []
  }

  /** The menu is closed although the request then does not leave: the wire takes this one send and no other. */
  predicate OnlyTheCloseLeaves(n: Navigator, remote: Remote, now: int) {
    remote.menu.shown && n.menuOwner != Pilot && !HoldsForAnUntakenToggle(n, now) && CanSend(n)
  }

  /** The queue after its i-th request was sent, or held with its marks. */
  predicate IsServedAt(n: Navigator, remote: Remote, now: int, i: nat, after: Navigator)
    requires i < |n.pending|
  {
    && |after.pending| == |n.pending| && (forall j | 0 <= j < |n.pending| && j != i :: after.pending[j] == n.pending[j])
    && if NothingHoldsTheQueue(n, remote, now) then
         && Unmarked(after.pending[i]) == Unmarked(Stamped(n.pending[i], now, remote))
         && after.log == n.log + CloseFirst(remote, now) + [Delivery(n.pending[i], now, remote)]
       else
         && Unmarked(after.pending[i]) == Unmarked(n.pending[i])
         && after.log == n.log + if OnlyTheCloseLeaves(n, remote, now) then CloseFirst(remote, now) else []
  }

  lemma ServedWithoutAMenu(n: Navigator, remote: Remote, now: int, i: nat)
    requires i < |n.pending| && !HoldsForAnUntakenToggle(n, now) && !remote.menu.shown
    ensures IsServedAt(n, remote, now, i, SendRequest(n, remote, now, i))
  {
    DeliveryOfTheDue(n, remote, now, i);
    assert n.log + [] == n.log;
  }

  lemma ServedOverAMenu(n: Navigator, remote: Remote, now: int, i: nat)
    requires i < |n.pending| && !HoldsForAnUntakenToggle(n, now) && remote.menu.shown
    ensures IsServedAt(n, remote, now, i, SendRequest(n, remote, now, i))
  {
    if n.menuOwner != Pilot {
      DeliveryOfTheDue(Send(n, Command(MenuClose, now, remote)).(watchedSig := None), remote, now, i);
    }
    assert n.log + [] == n.log;
  }

  /**
    Serving the queue sends exactly the first request that waits, and that exactly when nothing holds it: what is put on
    record is the close of the client's menu, if one is up, and the send.  A request that is held keeps everything but
    the mark of what holds it, and leaves no send on record.  Every other request stays as it is.
  */
  lemma TheFirstDueIsServed(n: Navigator, remote: Remote, now: int)
    ensures var i := FirstDue(n.pending, now);
            var after := ServeTheQueue(n, remote, now);
            if exists r | r in n.pending :: IsWaiting(r, now) then
              && i < |n.pending| && IsWaiting(n.pending[i], now) && (forall j | 0 <= j < i :: !IsWaiting(n.pending[j], now))
              && IsServedAt(n, remote, now, i, after)
            else after == n
  {
    var i := FirstDue(n.pending, now);
    DueRequestsAreTheWaitingOnes(n.pending, now);
    if i < |n.pending| {
      if HoldsForAnUntakenToggle(n, now) {
        assert n.log + [] == n.log;
      } else if remote.menu.shown {
        ServedOverAMenu(n, remote, now, i);
      } else {
        ServedWithoutAMenu(n, remote, now, i);
      }
    }
  }

  lemma DeliveryOfTheDue(n: Navigator, remote: Remote, now: int, i: nat)
    requires i < |n.pending|
    ensures var after := Deliver(n, remote, now, i);
            if CanSend(n) then
              after.pending == n.pending[i := Stamped(n.pending[i], now, remote)] && after.log == n.log + [Delivery(n.pending[i], now, remote)]
            else after.pending == n.pending && after.log == n.log
  {
  }

  // ----- How long a request stays -----

  /** The request has waited too long: unsent or as a toggle for 90 seconds, or after its third send for 20. */
  predicate IsOverdue(r: Request, now: int) {
    || r.LeftUnsentForTooLong(now)
    || (r.WasSent() && r.UndoneByASecondSend() && r.GiveUpWindowElapsed(now))
    || (r.attempts >= MAX_TRIGGER_ATTEMPTS && r.RetryWindowElapsed(now))
  }

  lemma TidyLeavesNothingOverdue(n: Navigator, remote: Remote, now: int)
    ensures var tidied := TidyTheQueue(n, remote, now).pending;
            forall i | 0 <= i < |tidied| :: !IsOverdue(tidied[i], now) && !WasTaken(tidied[i], remote)
  {
    var restarted := RestartTheUnsentClocks(TrackMenuOwner(n, remote, now), now);
    var kept := Kept(restarted.pending, ReasonsAt(remote, now));
    KeptIsKept(restarted.pending, ReasonsAt(remote, now));
    forall i | 0 <= i < |kept| ensures !IsOverdue(Marked(kept[i], remote, now), now) && !WasTaken(Marked(kept[i], remote, now), remote) {
      assert DropReasonFor(kept[i], remote, now) == Keep;
    }
  }

  lemma MarksDoNotMatter(a: Request, b: Request, remote: Remote, now: int)
    requires Unmarked(a) == Unmarked(b)
    ensures IsOverdue(a, now) == IsOverdue(b, now) && WasTaken(a, remote) == WasTaken(b, remote) && a.lastSentMs == b.lastSentMs
  {
  }

  lemma ServingLeavesNothingOverdue(n: Navigator, remote: Remote, now: int, i: nat)
    requires i < |n.pending| == |ServeTheQueue(n, remote, now).pending| && !IsOverdue(n.pending[i], now) && !WasTaken(n.pending[i], remote)
    ensures var r := ServeTheQueue(n, remote, now).pending[i];
            !IsOverdue(r, now) && (WasTaken(r, remote) ==> r.lastSentMs == now)
  {
    var r := ServeTheQueue(n, remote, now).pending[i];
    TheFirstDueIsServed(n, remote, now);
    if i == FirstDue(n.pending, now) {
      if NothingHoldsTheQueue(n, remote, now) {
        MarksDoNotMatter(r, Stamped(n.pending[i], now, remote), remote, now);
      } else {
        MarksDoNotMatter(r, n.pending[i], remote, now);
      }
    }
  }

  /** No pump leaves an overdue request in the queue, nor one that GSX took before it was sent just now. */
  lemma PumpLeavesNothingOverdue(n: Navigator, remote: Remote, now: int, pass: Pass)
    ensures var after := PumpRequests(n, remote, now, pass).pending;
            forall i | 0 <= i < |after| :: !IsOverdue(after[i], now) && (WasTaken(after[i], remote) ==> after[i].lastSentMs == now)
  {
    var tidied := TidyTheQueue(n, remote, now);
    var served := ServeTheQueue(tidied, remote, now);
    TidyLeavesNothingOverdue(n, remote, now);
    TheFirstDueIsServed(tidied, remote, now);
    forall i | 0 <= i < |served.pending|
      ensures !IsOverdue(served.pending[i], now) && (WasTaken(served.pending[i], remote) ==> served.pending[i].lastSentMs == now)
    {
      ServingLeavesNothingOverdue(tidied, remote, now, i);
    }
  }

  // ----- The record only grows -----

  /** The record goes on from where it was, and the menu keeps its owner. */
  predicate GoesOn(before: Navigator, after: Navigator) {
    before.log <= after.log && after.menuOwner == before.menuOwner
  }

  lemma ResyncGoesOn(n: Navigator, remote: Remote, now: int, pass: Pass)
    ensures GoesOn(n, MaybeResyncStalledMenu(n, remote, now, pass))
  {
    assert GoesOn(n, CloseStaleMenu(n, remote, now));
    assert GoesOn(n, DiscardStuckMenu(n, remote, now, MenuSignature(remote.menu)));
    assert GoesOn(n, AskForASnapshot(n, remote, now));
  }

  lemma PickingGoesOn(n: Navigator, remote: Remote, now: int, pass: Pass)
    ensures GoesOn(n, PickStage(n, remote, now, pass))
  {
    assert GoesOn(n, PickEntry(n, remote, now));
  }

  lemma DeliveryGoesOn(n: Navigator, remote: Remote, now: int, i: nat)
    requires i < |n.pending|
    ensures GoesOn(n, Deliver(n, remote, now, i))
  {
  }

  lemma ServingGoesOn(n: Navigator, remote: Remote, now: int)
    ensures GoesOn(n, ServeTheQueue(n, remote, now))
  {
    var i := FirstDue(n.pending, now);
    if i < |n.pending| {
      DeliveryGoesOn(n, remote, now, i);
      var closed := Send(n, Command(MenuClose, now, remote)).(watchedSig := None);
      assert GoesOn(n, closed);
      DeliveryGoesOn(closed, remote, now, i);
    }
  }

  /** A step of the navigator goes on from where looking at the menu led. */
  predicate GoesOnFromTracking(n: Navigator, remote: Remote, now: int, after: Navigator) {
    n.log <= after.log && after.menuOwner == TrackMenuOwner(n, remote, now).menuOwner
  }

  lemma HandlingGoesOn(n: Navigator, remote: Remote, now: int, pass: Pass)
    ensures GoesOnFromTracking(n, remote, now, HandleMenu(n, remote, now, pass))
  {
    var tracked := TrackMenuOwner(n, remote, now);
    ResyncGoesOn(tracked, remote, now, pass);
    PickingGoesOn(MaybeResyncStalledMenu(tracked, remote, now, pass), remote, now, pass);
  }

  lemma TidyingGoesOn(n: Navigator, remote: Remote, now: int)
    ensures GoesOnFromTracking(n, remote, now, TidyTheQueue(n, remote, now))
  {
    DroppingGoesOn(RestartTheUnsentClocks(TrackMenuOwner(n, remote, now), now), remote, now);
  }

  lemma PumpGoesOn(n: Navigator, remote: Remote, now: int, pass: Pass)
    ensures GoesOnFromTracking(n, remote, now, PumpRequests(n, remote, now, pass))
  {
    TidyingGoesOn(n, remote, now);
    ServingGoesOn(TidyTheQueue(n, remote, now), remote, now);
  }

  lemma DroppingGoesOn(n: Navigator, remote: Remote, now: int)
    ensures GoesOn(n, DropTheSettled(n, remote, now))
  {
  }

  lemma TrackingTwice(n: Navigator, remote: Remote, now: int, later: Navigator)
    requires later.menuOwner == TrackMenuOwner(n, remote, now).menuOwner
    ensures TrackMenuOwner(later, remote, now).menuOwner == later.menuOwner
  {
  }

  lemma MenuChangeGoesOn(n: Navigator, remote: Remote, now: int, pass: Pass)
    ensures GoesOnFromTracking(n, remote, now, OnMenuChanged(n, remote, now, pass))
  {
    var begun := BeginPass(n, pass);
    var handled := HandleMenu(begun, remote, now, pass);
    HandlingGoesOn(begun, remote, now, pass);
    TrackingTwice(begun, remote, now, handled);
    PumpGoesOn(handled, remote, now, pass);
  }

  lemma ArmingGrows(n: Navigator, remote: Remote, now: int, pass: Pass, request: Request)
    ensures n.log <= ArmRequest(n, remote, now, pass, request).log
  {
    PumpGoesOn(BeginPass(n, pass).(pending := Requeued(n.pending, request)), remote, now, pass);
  }

  lemma TogglingGrows(n: Navigator, remote: Remote, now: int)
    ensures n.log <= ToggleMenu(n, remote, now).log
  {
  }

  lemma PickingNowGrows(n: Navigator, remote: Remote, now: int, pass: Pass)
    ensures n.log <= PickNowOrArm(n, remote, now, pass).log
  {
    var begun := BeginPass(n, pass);
    TogglingGrows(OpenIntent(begun, ServiceIntent, now), remote, now);
    TogglingGrows(OpenIntent(PickEntry(begun, remote, now), ServiceIntent, now), remote, now);
  }

  lemma AskingGrows(n: Navigator, remote: Remote, at: int, asking: Asking, pass: Pass)
    ensures n.log <= Ask(n, remote, at, asking, pass).log
  {
    match asking {
      case Trigger(serviceId, fires) =>
        ArmingGrows(OpenIntent(n, ServiceIntent, at), remote, at, pass,
                    NewRequest(ServiceTrigger, Obj(map["service" := Str(serviceId)]), serviceId, serviceId, at, fires));
      case Clearance =>
        ArmingGrows(OpenIntent(n, ServiceIntent, at), remote, at, pass,
                    NewRequest(ServiceTrigger, Obj(map["service" := Str("Departure")]), "Departure", "", at, false));
      case SimbriefLoad =>
        ArmingGrows(n, remote, at, pass,
                    NewRequest(CommandRun, Obj(map["command" := Str("RELOAD_SIMBRIEF")]), "RELOAD_SIMBRIEF", "", at, false));
      case Reposition => TogglingGrows(BeginPass(OpenIntent(n, RepositionIntent, at).(reposition := Opening), pass), remote, at);
      case Complete => TogglingGrows(BeginPass(OpenIntent(n, ServiceIntent, at), pass), remote, at);
      case PickNow => PickingNowGrows(n, remote, at, pass);
      case Disable =>
    }
  }

  lemma ObservingGrows(n: Navigator, remote: Remote, at: int, driving: bool, snapshot: bool, pass: Pass)
    ensures n.log <= Observed(n, remote, at, driving, snapshot, pass).log
  {
    MenuChangeGoesOn(n, remote, at, pass);
    MenuChangeGoesOn(n.(resyncPending := false), remote, at, pass);
  }

  lemma PublishingGrows(s: System, at: int, publication: Publication, driving: bool, pass: Pass)
    ensures var after := Publish(s.nav, s.remote, at, publication, driving, pass);
            && s.nav.log <= after.nav.log
            && (publication.Menu? || publication.Snapshot? ==> s.nav.log + [MenuPublished(at, publication.menu.shown)] <= after.nav.log)
  {
    match publication {
      case Menu(menu) => ObservingGrows(Noted(s.nav, menu, at), s.remote.(menu := menu), at, driving, false, pass);
      case Snapshot(menu, services) =>
        ObservingGrows(Noted(s.nav, menu, at), s.remote.(menu := menu, services := services, synced := true), at, driving, true, pass);
      case _ =>
    }
  }

  lemma ManagingGrows(n: Navigator, remote: Remote, at: int, managing: Managing)
    ensures n.log <= Manage(n, remote, at, managing).log
  {
    if managing.Tick? {
      MenuChangeGoesOn(n, remote, at, managing.pass);
    }
  }

  lemma StepGrows(s: System, t: Timed)
    ensures s.nav.log <= Take(s, t).nav.log
    ensures PublishedMenu(t.step).Some? ==>
            s.nav.log + [MenuPublished(t.at, PublishedMenu(t.step).value.shown)] <= Take(s, t).nav.log
  {
    match t.step {
      case Published(publication, driving, pass) => PublishingGrows(s, t.at, publication, driving, pass);
      case Asked(asking, pass) => AskingGrows(s.nav, s.remote, t.at, asking, pass);
      case Managed(managing) => ManagingGrows(s.nav, s.remote, t.at, managing);
    }
  }

  /** The menu that a step publishes. */
  function PublishedMenu(step: Step): Option<RemoteMenu> {
    if step.Published? && (step.publication.Menu? || step.publication.Snapshot?) then Some(step.publication.menu) else None
  }

  /** What was on record stays on record. */
  lemma {:induction false} RecordGrows(steps: seq<Timed>, j: nat)
    requires j <= |steps|
    ensures Run(steps[..j]).nav.log <= Run(steps).nav.log
  {
    if j == |steps| {
      assert steps[..j] == steps;
    } else {
      var n := |steps| - 1;
      assert steps[..n][..j] == steps[..j];
      RecordGrows(steps[..n], j);
      StepGrows(Run(steps[..n]), steps[n]);
    }
  }

  // ----- Whose menu is closed -----

  /**
    In every run, whenever the client closes a menu that is on screen, or sends a request over it: a menu was
    judged the client's and given up by nobody since.  Unless GSX was reconnected since, that menu is the one on
    screen, it never went away in between, and the client asked for it less than three seconds before it came up.
  */
  lemma ClosedMenusOfEveryRun(steps: seq<Timed>, k: nat) returns (up: nat, seen: nat)
    requires IsOrdered(steps) && k < |Run(steps).nav.log|
    requires TakesTheMenuAway(Run(steps).nav.log[k])
    ensures var log := Run(steps).nav.log;
            && CameUp(log, up, k)
            && seen < k && log[seen].FirstSeen? && log[seen].owner == Client
            && (forall m | seen < m < k :: !ChangesTheOwner(log[m]))
            && (up < seen <==> !ReconnectedBetween(log, seen, k))
            && (up < seen ==> WasAskedFor(log, up))
  {
    EveryRunHolds(steps);
    up, seen := OnlyTheClientsMenuIsClosed(Run(steps).nav.log, k);
  }

  /** What the navigator would say of a menu if it had none on record. */
  function Judgement(n: Navigator, now: int): MenuOwner {
    if AnswersAClientRequest(n, now) then Client else Pilot
  }

  /** The step brings a menu up that was not on screen. */
  predicate BringsUpAMenu(s: System, t: Timed) {
    !s.remote.menu.shown && PublishedMenu(t.step).Some? && PublishedMenu(t.step).value.shown
  }

  lemma JudgementIsOnRecord(log: seq<Happening>, p: nat, n: Navigator, remote: Remote, now: int)
    requires IsLawful(log) && p < |log| && log[..p] == n.log && log[p].at == now && RecordFits(n.log, ViewOf(n, remote), now)
    ensures Judgement(n, now) == Client <==> WasAskedFor(log, p)
  {
    var last := AskedIsTheLatestThatCounts(log, p);
  }

  /**
    The exact failure: of a menu that came up in a step and is taken away at k, the navigator would have said that
    it is the pilot's, had it looked at it afresh, if and only if GSX was reconnected since the judgement it acts on
    and no asking lay less than three seconds before the menu came up.
  */
  lemma PilotsMenusAreClosedOnlyAfterAReconnection(steps: seq<Timed>, j: nat, k: nat) returns (seen: nat)
    requires IsOrdered(steps) && j < |steps| && BringsUpAMenu(Run(steps[..j]), steps[j])
    requires k < |Run(steps).nav.log| && TakesTheMenuAway(Run(steps).nav.log[k])
    requires var up := |Run(steps[..j]).nav.log|;
             up < k && forall m | up < m < k :: !TakesOffTheScreen(Run(steps).nav.log[m])
    ensures var log, up := Run(steps).nav.log, |Run(steps[..j]).nav.log|;
            && seen < k && log[seen] == FirstSeen(log[seen].at, Client) && (forall m | seen < m < k :: !ChangesTheOwner(log[m]))
            && log[up] == MenuPublished(steps[j].at, true)
            && (Judgement(Run(steps[..j]).nav, steps[j].at) == Pilot
                <==> ReconnectedBetween(log, seen, k) && !WasAskedFor(log, up))
  {
    var log, s := Run(steps).nav.log, Run(steps[..j]);
    var up := |s.nav.log|;
    EveryRunHolds(steps);
    OrderedSoFar(steps, j);
    EveryRunHolds(steps[..j]);
    StepIsOnRecord(steps, j);
    LaterHolds(s.nav, s.remote, s.clock, steps[j].at);
    JudgementIsOnRecord(log, up, s.nav, s.remote, steps[j].at);
    var u;
    u, seen := OnlyTheClientsMenuIsClosed(log, k);
    assert u == up by {
      assert CameUp(log, up, k);
      OneMenuCameUp(log, up, u, k);
    }
  }

  lemma StepIsOnRecord(steps: seq<Timed>, j: nat)
    requires j < |steps| && PublishedMenu(steps[j].step).Some?
    ensures var s, log := Run(steps[..j]), Run(steps).nav.log;
            |s.nav.log| < |log| && log[..|s.nav.log|] == s.nav.log
            && log[|s.nav.log|] == MenuPublished(steps[j].at, PublishedMenu(steps[j].step).value.shown)
  {
    assert steps[..j + 1][..j] == steps[..j];
    StepGrows(Run(steps[..j]), steps[j]);
    RecordGrows(steps, j + 1);
  }

  lemma {:induction false} OrderedSoFar(steps: seq<Timed>, j: nat)
    requires IsOrdered(steps) && j < |steps|
    ensures IsOrdered(steps[..j]) && EndOf(steps[..j]) <= steps[j].at
  {
    var n := |steps| - 1;
    if j < n {
      assert steps[..n][..j] == steps[..j];
      OrderedSoFar(steps[..n], j);
    }
  }

  lemma OneMenuCameUp(log: seq<Happening>, a: nat, b: nat, k: nat)
    requires CameUp(log, a, k) && CameUp(log, b, k)
    ensures a == b
  {
    if a < b {
      ScreenAfter(log, a, b);
    } else if b < a {
      ScreenAfter(log, b, a);
    }
  }

  // ----- Reconnections -----

  /** GSX goes away and comes back: the client learns of the loss, of the new connection and of the first snapshot. */
  function Reconnection(down: int, up: int, menu: RemoteMenu, services: seq<RemoteService>, driving: bool, pass: Pass): seq<Timed> {
    [Timed(down, Published(Connection(false), driving, pass)),
     Timed(up, Published(Connection(true), driving, pass)),
     Timed(up, Published(Snapshot(menu, services), driving, pass))]
  }

  lemma RunOfOneMore(steps: seq<Timed>, t: Timed)
    ensures Run(steps + [t]) == Take(Run(steps), t)
  {
    assert (steps + [t])[..|steps|] == steps;
  }

  lemma LosingTheConnection(steps: seq<Timed>, down: int, driving: bool, pass: Pass)
    ensures Run(steps + [Timed(down, Published(Connection(false), driving, pass))]).nav == Run(steps).nav
  {
    RunOfOneMore(steps, Timed(down, Published(Connection(false), driving, pass)));
  }

  lemma Reconnecting(steps: seq<Timed>, up: int, driving: bool, pass: Pass)
    ensures Run(steps + [Timed(up, Published(Connection(true), driving, pass))]).nav
            == Run(steps).nav.(log := Run(steps).nav.log + [Reconnected(up)])
  {
    RunOfOneMore(steps, Timed(up, Published(Connection(true), driving, pass)));
  }

  lemma OwnerOnceShown(steps: seq<Timed>, up: int, menu: RemoteMenu, services: seq<RemoteService>, driving: bool, pass: Pass)
    requires menu.shown
    ensures var before, after := Run(steps).nav, Run(steps + [Timed(up, Published(Snapshot(menu, services), driving, pass))]);
            && after.remote.menu == menu
            && after.nav.menuOwner == if before.menuOwner == Nobody then Judgement(before, up) else before.menuOwner
  {
    var t := Timed(up, Published(Snapshot(menu, services), driving, pass));
    RunOfOneMore(steps, t);
    var noted := Noted(Run(steps).nav, menu, up).(resyncPending := false);
    MenuChangeGoesOn(noted, Take(Run(steps), t).remote, up, pass);
  }

  lemma OwnerOverAReconnection(steps: seq<Timed>, down: int, up: int, menu: RemoteMenu, services: seq<RemoteService>, driving: bool, pass: Pass)
    requires menu.shown
    ensures var before, after := Run(steps).nav, Run(steps + Reconnection(down, up, menu, services, driving, pass));
            && after.remote.menu == menu
            && after.nav.menuOwner == if before.menuOwner == Nobody then Judgement(before, up) else before.menuOwner
  {
    var three := Reconnection(down, up, menu, services, driving, pass);
    LosingTheConnection(steps, down, driving, pass);
    Reconnecting(steps + [three[0]], up, driving, pass);
    OwnerOnceShown(steps + [three[0]] + [three[1]], up, menu, services, driving, pass);
    assert steps + three == steps + [three[0]] + [three[1]] + [three[2]];
  }

  /** The last thing on record is that the client closed the menu on screen. */
  predicate EndsInAClosedMenu(before: seq<Happening>, after: seq<Happening>) {
    |before| < |after| && TakesTheMenuAway(after[|after| - 1])
  }

  lemma DisablingCloses(s: System, at: int, pass: Pass)
    requires s.remote.menu.shown && s.nav.menuOwner != Nobody && pass.accepts > 0
    ensures var after := Take(s, Timed(at, Asked(Disable, pass)));
            EndsInAClosedMenu(s.nav.log, after.nav.log) <==> s.nav.menuOwner == Client
  {
  }

  /**
    After any run, GSX goes away and comes back with a menu on screen.  The client then closes that menu, although it
    would have called it the pilot's, if and only if the menu on record before was the client's own and no asking lay
    less than three seconds back: the owner is kept over a reconnection that forgets the menu.
  */
  lemma OwnerAfterAReconnection(steps: seq<Timed>, down: int, up: int, menu: RemoteMenu, services: seq<RemoteService>, driving: bool,
                                pass: Pass, at: int, close: Pass)
    requires IsOrdered(steps) && EndOf(steps) <= down <= up <= at && menu.shown && close.accepts > 0
    ensures var before := Run(steps).nav;
            var back := steps + Reconnection(down, up, menu, services, driving, pass);
            var closed := EndsInAClosedMenu(Run(back).nav.log, Run(back + [Timed(at, Asked(Disable, close))]).nav.log);
            closed && Judgement(before, up) == Pilot <==> before.menuOwner == Client && !AnswersAClientRequest(before, up)
  {
    var back := steps + Reconnection(down, up, menu, services, driving, pass);
    OwnerOverAReconnection(steps, down, up, menu, services, driving, pass);
    RunOfOneMore(back, Timed(at, Asked(Disable, close)));
    DisablingCloses(Run(back), at, close);
  }

  const QUIET := Pass(1, false, false, false, false, Idle)
  const CLIENTS_MENU := RemoteMenu("Services", ["Close"], [false], true)
  const PILOTS_MENU := RemoteMenu("Parking", ["Close"], [false], true)

  /** The client opens a menu of its own. */
  const OPENED_RUN: seq<Timed> := [
    Timed(0, Asked(Complete, QUIET)),
    Timed(100, Published(Publication.Menu(CLIENTS_MENU), true, QUIET))
  ]

  lemma ClientsToggleIsSeen()
    ensures IsOrdered(OPENED_RUN) && EndOf(OPENED_RUN) == 100
    ensures Run(OPENED_RUN).nav.menuOwner == Client && Run(OPENED_RUN).nav.menuRequestedMs == Some(0)
  {
    assert OPENED_RUN[..1] == [OPENED_RUN[0]] && OPENED_RUN[..1][..0] == [];
    assert IsOrdered(OPENED_RUN[..1]);
    assert Run(OPENED_RUN[..1]) == Take(BEGINNING, OPENED_RUN[0]);
    assert Run(OPENED_RUN) == Take(Run(OPENED_RUN[..1]), OPENED_RUN[1]);
    var noted := Noted(Run(OPENED_RUN[..1]).nav, CLIENTS_MENU, 100);
    MenuChangeGoesOn(noted, Run(OPENED_RUN).remote, 100, QUIET);
  }

  /** So the pilot's menu can be closed: it comes with the snapshot nine seconds after the client's own was up. */
  lemma ReconnectingCanCloseThePilotsMenu()
    ensures var back := OPENED_RUN + Reconnection(200, 9000, PILOTS_MENU, [], false, QUIET);
            && Judgement(Run(OPENED_RUN).nav, 9000) == Pilot
            && EndsInAClosedMenu(Run(back).nav.log, Run(back + [Timed(9001, Asked(Disable, QUIET))]).nav.log)
  {
    ClientsToggleIsSeen();
    OwnerAfterAReconnection(OPENED_RUN, 200, 9000, PILOTS_MENU, [], false, QUIET, 9001, QUIET);
  }

  // ----- Saving and restoring -----

  /** What a restart leaves of a queued request: what GSX was showing at the send is forgotten. */
  function Reread(r: Request): Request {
    r.(heldBehindThePilotsMenu := false, heldBehindAToggle := false, refused := false, messagesAtSend := -1)
  }

  lemma RequestRoundTrip(r: Request, now: int)
    requires IsArmedVerb(r.verb) && r.args.Obj? && 0 <= r.attempts <= MAX_TRIGGER_ATTEMPTS
    requires 0 <= r.lastSentMs <= now && 0 <= r.armedMs <= now && IsInt64(now)
    ensures RequestFromJson(RequestToJson(r), now) == Some(Reread(r))
  {
    var json := RequestToJson(r);
    assert VerbText(ServiceTrigger) != VerbText(CommandRun);
    assert (r.lastSentMs as real).Floor == r.lastSentMs && (r.armedMs as real).Floor == r.armedMs;
    assert (r.attempts as real).Floor == r.attempts;
  }

  lemma {:induction false} ReadableItemsAreKept(items: seq<Json>, queue: seq<Request>, read: Json -> Option<Request>)
    requires HasNoTwins(queue) && |items| == |queue|
    requires forall i | 0 <= i < |items| :: read(items[i]) == Some(queue[i])
    ensures PendingFrom(items, read) == queue
  {
    if items != [] {
      var n := |items| - 1;
      ReadableItemsAreKept(items[..n], queue[..n], read);
      assert queue == queue[..n] + [queue[n]];
    }
  }

  lemma QueueRoundTrip(pending: seq<Request>, now: int)
    requires HasNoTwins(pending) && IsInt64(now)
    requires forall r | r in pending ::
               && IsArmedVerb(r.verb) && r.args.Obj? && 0 <= r.attempts <= MAX_TRIGGER_ATTEMPTS
               && 0 <= r.lastSentMs <= now && 0 <= r.armedMs <= now
    ensures var queue := PendingFrom(QueueToJson(pending), Reader(now));
            |queue| == |pending| && forall i | 0 <= i < |pending| :: queue[i] == Reread(pending[i])
  {
    var queue := seq(|pending|, i requires 0 <= i < |pending| => Reread(pending[i]));
    forall i | 0 <= i < |pending| ensures Reader(now)(QueueToJson(pending)[i]) == Some(queue[i]) {
      RequestRoundTrip(pending[i], now);
    }
    assert forall i | 0 <= i < |pending| :: queue[i].GetKey() == pending[i].GetKey();
    ReadableItemsAreKept(QueueToJson(pending), queue, Reader(now));
  }

  /**
    Saving the queue of any run and restoring it later gives back the same requests in the same order, with
    verb, arguments, label, confirmation, attempts, time of the last send and the underway flag; an unsent
    request starts waiting anew, and the record names every request that was sent.
  */
  lemma SaveAndRestoreKeepTheQueue(steps: seq<Timed>, other: Navigator, now: int)
    requires IsOrdered(steps) && EndOf(steps) <= now && IsInt64(now)
    ensures var saved := Run(steps).nav;
            var restored := RestoreMemory(other, TakeMemory(saved), now);
            && |restored.pending| == |saved.pending|
            && (forall i | 0 <= i < |saved.pending| :: restored.pending[i] == Rearmed(Reread(saved.pending[i]), now))
            && restored.log == other.log + [Restored(now, SentCounts(saved.pending))]
  {
    var saved := Run(steps).nav;
    EveryRunHolds(steps);
    QueueOfEveryRun(steps);
    SavedRequestsAreReadable(steps, now);
    QueueRoundTrip(saved.pending, now);
    var queue := PendingFrom(QueueToJson(saved.pending), Reader(now));
    SameSentCounts(saved.pending, queue);
  }

  lemma SavedRequestsAreReadable(steps: seq<Timed>, now: int)
    requires IsOrdered(steps) && EndOf(steps) <= now
    ensures HasNoTwins(Run(steps).nav.pending)
    ensures forall r | r in Run(steps).nav.pending ::
              && IsArmedVerb(r.verb) && r.args.Obj? && 0 <= r.attempts <= MAX_TRIGGER_ATTEMPTS
              && 0 <= r.lastSentMs <= now && 0 <= r.armedMs <= now
  {
    EveryRunHolds(steps);
    var s := Run(steps);
    var summary := Summarize(s.nav.log);
    forall r | r in s.nav.pending
      ensures IsArmedVerb(r.verb) && r.args.Obj? && 0 <= r.attempts <= MAX_TRIGGER_ATTEMPTS
      ensures 0 <= r.lastSentMs <= now && 0 <= r.armedMs <= now
    {
      var i :| 0 <= i < |s.nav.pending| && s.nav.pending[i] == r;
      assert IsInStep(s.nav.pending[i], summary.open, summary.sentBeforeTheRestore, s.clock, s.remote.messagesShown);
    }
  }

  lemma {:induction false} SameSentCounts(before: seq<Request>, after: seq<Request>)
    requires |after| == |before|
    requires forall i | 0 <= i < |before| :: after[i] == Reread(before[i])
    ensures SentCounts(after) == SentCounts(before)
  {
    if before != [] {
      SameSentCounts(before[..|before| - 1], after[..|after| - 1]);
    }
  }

  /**
    A request that was sent before its process ended is restored as sent, as often as it was; and a toggle among them
    is not sent again in the new process while its request stays queued.
  */
  lemma SavedToggleIsNotResent(saved: seq<Timed>, steps: seq<Timed>, r: nat, i: nat, j: nat)
    requires IsOrdered(saved) && IsOrdered(steps) && r < |steps| && EndOf(saved) <= steps[r].at && IsInt64(steps[r].at)
    requires steps[r].step == Managed(Restore(TakeMemory(Run(saved).nav)))
    requires i < |Run(saved).nav.pending| && Run(saved).nav.pending[i].WasSent()
    requires |Run(steps[..r]).nav.log| < j < |Run(steps).nav.log|
    requires var key, log := Run(saved).nav.pending[i].GetKey(), Run(steps).nav.log;
             forall k | |Run(steps[..r]).nav.log| < k < j :: !IsSendOf(log[k], key) && !Ends(log[k], key)
    ensures var request, log := Run(saved).nav.pending[i], Run(steps).nav.log;
            && SendsOf(log[..j], request.GetKey()) == request.attempts
            && !(IsSendOf(log[j], request.GetKey()) && log[j].toggle)
  {
    var request, log, p := Run(saved).nav.pending[i], Run(steps).nav.log, |Run(steps[..r]).nav.log|;
    EveryRunHolds(steps);
    RestoreIsOnRecord(saved, steps, r, i);
    RestoredToggleIsNotResent(log, request.GetKey(), p, j);
    CountsStay(log, request.GetKey(), p, j);
  }

  lemma RestoreIsOnRecord(saved: seq<Timed>, steps: seq<Timed>, r: nat, i: nat)
    requires IsOrdered(saved) && r < |steps| && EndOf(saved) <= steps[r].at && IsInt64(steps[r].at)
    requires steps[r].step == Managed(Restore(TakeMemory(Run(saved).nav)))
    requires i < |Run(saved).nav.pending| && Run(saved).nav.pending[i].WasSent()
    ensures var request, log, p := Run(saved).nav.pending[i], Run(steps).nav.log, |Run(steps[..r]).nav.log|;
            && p < |log| && log[p].Restored?
            && request.GetKey() in log[p].sentBefore && log[p].sentBefore[request.GetKey()] == request.attempts
  {
    SaveAndRestoreKeepTheQueue(saved, Run(steps[..r]).nav, steps[r].at);
    SavedRequestsAreReadable(saved, steps[r].at);
    CountsAreTheQueues(Run(saved).nav.pending);
    RestoringIsAStep(steps, r, TakeMemory(Run(saved).nav));
    LastHappeningOfAStep(steps, r, Restored(steps[r].at, SentCounts(Run(saved).nav.pending)));
  }

  lemma RestoringIsAStep(steps: seq<Timed>, r: nat, memory: Json)
    requires r < |steps| && steps[r].step == Managed(Restore(memory))
    ensures Run(steps[..r + 1]).nav == RestoreMemory(Run(steps[..r]).nav, memory, steps[r].at)
  {
    RunOfOneMore(steps[..r], steps[r]);
    assert steps[..r] + [steps[r]] == steps[..r + 1];
  }

  lemma LastHappeningOfAStep(steps: seq<Timed>, r: nat, e: Happening)
    requires r < |steps| && Run(steps[..r + 1]).nav.log == Run(steps[..r]).nav.log + [e]
    ensures |Run(steps[..r]).nav.log| < |Run(steps).nav.log| && Run(steps).nav.log[|Run(steps[..r]).nav.log|] == e
  {
    RecordGrows(steps, r + 1);
  }

  lemma {:induction false} CountsStay(log: seq<Happening>, key: Key, r: nat, j: nat)
    requires r < j <= |log| && log[r].Restored? && key in log[r].sentBefore
    requires forall k | r < k < j :: !IsSendOf(log[k], key) && !Ends(log[k], key)
    ensures SendsOf(log[..j], key) == log[r].sentBefore[key]
    decreases j
  {
    assert log[..j][..j - 1] == log[..j - 1];
    if r < j - 1 {
      CountsStay(log, key, r, j - 1);
    }
  }
}
