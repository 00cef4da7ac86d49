/** Every run of the navigator against a GSX that publishes, speaks, disconnects and refuses at will. */
module NavigatorRuns {
  import opened Options
  import opened Json
  import opened GsxRemote
  import opened NavigatorModel
  import opened NavigatorHistory

  datatype System = System(nav: Navigator, remote: Remote, clock: int)

  const BEGINNING := System(START, FRESH, 0)

  /** What GSX can do to the state it publishes. */
  datatype Publication =
    | Services(services: seq<RemoteService>)
    | Menu(menu: RemoteMenu)
    | Snapshot(menu: RemoteMenu, services: seq<RemoteService>)
    | Message(text: string)
    | Connection(connected: bool)

  /** What the turnaround can ask the navigator for. */
  datatype Asking =
    | Trigger(serviceId: string, firesWhileUnderway: bool)
    | Clearance
    | SimbriefLoad
    | Reposition
    | Complete
    | PickNow
    | Disable

  /** What the runtime does to the navigator between the requests. */
  datatype Managing =
    | Tick(pass: Pass)
    | Hold(held: bool)
    | Forget
    | Restore(memory: Json)

  /** What happens in one moment. */
  datatype Step =
    | Published(publication: Publication, driving: bool, pass: Pass)
    | Asked(asking: Asking, pass: Pass)
    | Managed(managing: Managing)

  datatype Timed = Timed(at: int, step: Step)

  /** A patch or a snapshot is followed at once by the navigator, or by its owner tracking alone while it does not drive. */
  function Observed(n: Navigator, remote: Remote, at: int, driving: bool, snapshot: bool, pass: Pass): Navigator {
    if !driving then TrackMenuOwner(n, remote, at)
    else if snapshot then OnSnapshot(n, remote, at, pass)
    else OnMenuChanged(n, remote, at, pass)
  }

  /** The record notes whether GSX shows a menu; the navigator itself learns of it by looking. */
  function Noted(n: Navigator, menu: RemoteMenu, at: int): Navigator {
    n.(log := n.log + [MenuPublished(at, menu.shown)])
  }

  function Publish(n: Navigator, remote: Remote, at: int, publication: Publication, driving: bool, pass: Pass): System {
    match publication
    case Services(services) => System(n, remote.(services := services), at)
    case Menu(menu) =>
      var shown := remote.(menu := menu);
      System(Observed(Noted(n, menu, at), shown, at, driving, false, pass), shown, at)
    case Snapshot(menu, services) =>
      var shown := remote.(menu := menu, services := services, synced := true);
      System(Observed(Noted(n, menu, at), shown, at, driving, true, pass), shown, at)
    case Message(text) =>
      System(n.(log := n.log + [MessageShown(at)]), remote.(messagesShown := remote.messagesShown + 1, lastMessage := text), at)
    case Connection(connected) =>
      System(if connected then n.(log := n.log + [Reconnected(at)]) else n, ApplyConnection(remote, connected), at)
  }

  function Ask(n: Navigator, remote: Remote, at: int, asking: Asking, pass: Pass): Navigator {
    match asking
    case Trigger(serviceId, fires) => TriggerService(n, remote, at, pass, serviceId, fires)
    case Clearance => RequestDepartureClearance(n, remote, at, pass)
    case SimbriefLoad => RequestSimbriefLoad(n, remote, at, pass)
    case Reposition => RepositionAircraft(n, remote, at, pass)
    case Complete => CompleteService(n, remote, at, pass)
    case PickNow => PickNowOrArm(n, remote, at, pass)
    case Disable => DisableGsxMenu(n, remote, at, pass)
  }

  function Manage(n: Navigator, remote: Remote, at: int, managing: Managing): Navigator {
    match managing
    case Tick(pass) => OnMenuChanged(n, remote, at, pass)
    case Hold(held) => n.(requestsHeld := held)
    case Forget => Reset(n, at)
    case Restore(memory) => RestoreMemory(n, memory, at)
  }

  function Take(s: System, t: Timed): System {
    match t.step
    case Published(publication, driving, pass) => Publish(s.nav, s.remote, t.at, publication, driving, pass)
    case Asked(asking, pass) => System(Ask(s.nav, s.remote, t.at, asking, pass), s.remote, t.at)
    case Managed(managing) => System(Manage(s.nav, s.remote, t.at, managing), s.remote, t.at)
  }

  function Run(steps: seq<Timed>): System {
    if steps == [] then BEGINNING else Take(Run(steps[..|steps| - 1]), steps[|steps| - 1])
  }

  /** The clock never runs backwards. */
  predicate IsOrdered(steps: seq<Timed>) {
    steps == [] || (IsOrdered(steps[..|steps| - 1]) && EndOf(steps[..|steps| - 1]) <= steps[|steps| - 1].at)
  }

  function EndOf(steps: seq<Timed>): int {
    if steps == [] then 0 else steps[|steps| - 1].at
  }

  // ----- The invariant -----

  function Keys(pending: seq<Request>): set<Key> {
    set i | 0 <= i < |pending| :: pending[i].GetKey()
  }

  predicate HasNoTwins(pending: seq<Request>) {
    forall i, j | 0 <= i < j < |pending| :: pending[i].GetKey() != pending[j].GetKey()
  }

  /** A queued request agrees with what happened to it. */
  predicate IsInStep(r: Request, open: map<Key, OpenSend>, sentBefore: map<Key, nat>, now: int, messages: int) {
    var key := r.GetKey();
    && IsArmedVerb(r.verb) && r.args.Obj?
    && 0 <= r.attempts <= MAX_TRIGGER_ATTEMPTS
    && (r.refused ==> 1 <= r.attempts < MAX_TRIGGER_ATTEMPTS)
    && 0 <= r.lastSentMs <= now && 0 <= r.armedMs <= now
    && (key in sentBefore <==> r.WasSent() && r.messagesAtSend < 0)
    && (key in sentBefore ==> sentBefore[key] == r.attempts)
    && (key in open <==> r.messagesAtSend >= 0)
    && (r.messagesAtSend < 0 ==> r.messagesAtSend == -1 && !r.refused)
    && (r.messagesAtSend >= 0 ==>
          var last := open[key];
          && r.WasSent() && last.at == r.lastSentMs && last.sends == r.attempts
          && (last.answered || messages <= r.messagesAtSend)
          && (r.refused ==> last.answered && now - last.at >= REFUSAL_SETTLE_MS))
  }

  predicate QueueIsInStep(pending: seq<Request>, open: map<Key, OpenSend>, sentBefore: map<Key, nat>, now: int, messages: int) {
    && HasNoTwins(pending)
    && open.Keys + sentBefore.Keys <= Keys(pending)
    && forall i | 0 <= i < |pending| :: IsInStep(pending[i], open, sentBefore, now, messages)
  }

  /** What the record knows of the menu: whose it is, when the client last asked for one, and whether one is on screen. */
  datatype MenuView = MenuView(owner: MenuOwner, asked: Option<int>, screen: bool)

  function ViewOf(n: Navigator, remote: Remote): MenuView {
    MenuView(n.menuOwner, n.menuRequestedMs, remote.menu.shown)
  }

  function ViewIn(s: Summary): MenuView {
    MenuView(s.owner, s.asked, s.screen)
  }

  predicate RecordFits(log: seq<Happening>, view: MenuView, now: int) {
    var s := Summarize(log);
    IsLawful(log) && 0 <= s.now <= now && ViewIn(s) == view && !s.owed
  }

  predicate NavigatorHolds(n: Navigator, remote: Remote, now: int) {
    && RecordFits(n.log, ViewOf(n, remote), now)
    && var s := Summarize(n.log);
       QueueIsInStep(n.pending, s.open, s.sentBeforeTheRestore, now, remote.messagesShown)
  }

  /** The same in the moment GSX published a menu, when the navigator has yet to look at it. */
  predicate LookingIsDue(n: Navigator, remote: Remote, now: int) {
    var s := Summarize(n.log);
    && IsLawful(n.log) && 0 <= s.now <= now && ViewIn(s) == ViewOf(n, remote)
    && (s.owed ==> s.now == now && (n.menuOwner != Nobody) != remote.menu.shown)
    && QueueIsInStep(n.pending, s.open, s.sentBeforeTheRestore, now, remote.messagesShown)
  }

  predicate Holds(s: System) {
    NavigatorHolds(s.nav, s.remote, s.clock)
  }

  // ----- The record -----

  predicate RequestsAreTheSame(a: Summary, b: Summary) {
    a.open == b.open && a.sentBeforeTheRestore == b.sentBeforeTheRestore
  }

  lemma DeliveryFits(log: seq<Happening>, view: MenuView, r: Request, now: int, remote: Remote)
    requires RecordFits(log, view, now) && IsArmedVerb(r.verb)
    requires IsAllowed(Summarize(log), Delivery(r, now, remote))
    ensures var key := r.GetKey();
            var s := Summarize(log);
            var more := log + [Delivery(r, now, remote)];
            && RecordFits(more, view.(asked := Some(now)), now)
            && Summarize(more).open == s.open[key := OpenSend(now, SendsIn(s, key) + 1, false)]
            && Summarize(more).sentBeforeTheRestore == s.sentBeforeTheRestore - {key}
  {
    OneMore(log, Delivery(r, now, remote));
    AfterADelivery(Summarize(log), r, now, remote);
  }

  lemma AfterADelivery(s: Summary, r: Request, now: int, remote: Remote)
    requires IsArmedVerb(r.verb)
    ensures var key := r.GetKey();
            var after := After(s, Delivery(r, now, remote));
            && after.open == s.open[key := OpenSend(now, SendsIn(s, key) + 1, false)]
            && after.sentBeforeTheRestore == s.sentBeforeTheRestore - {key}
            && after.now == now && ViewIn(after) == ViewIn(s).(asked := Some(now)) && !after.owed
  {
  }

  lemma DropFits(log: seq<Happening>, view: MenuView, key: Key, reason: DropReason, now: int)
    requires RecordFits(log, view, now) && IsJustified(Summarize(log), now, key, reason)
    ensures var s := Summarize(log);
            var more := log + [Dropped(now, key, reason)];
            && RecordFits(more, view, now)
            && Summarize(more).open == s.open - {key}
            && Summarize(more).sentBeforeTheRestore == s.sentBeforeTheRestore - {key}
  {
    OneMore(log, Dropped(now, key, reason));
  }

  // ----- The queue -----

  /** Requests that each are in step, with the keys of a queue that covers what is open, are a queue in step. */
  lemma InStepTogether(before: seq<Request>, after: seq<Request>, open: map<Key, OpenSend>, sentBefore: map<Key, nat>, now: int, messages: int)
    requires HasNoTwins(before) && |after| == |before| && open.Keys + sentBefore.Keys <= Keys(before)
    requires forall i | 0 <= i < |after| ::
               after[i].GetKey() == before[i].GetKey() && IsInStep(after[i], open, sentBefore, now, messages)
    ensures QueueIsInStep(after, open, sentBefore, now, messages)
  {
    forall key | key in Keys(before) ensures key in Keys(after) {
      var i :| 0 <= i < |before| && before[i].GetKey() == key;
      assert after[i].GetKey() == key;
    }
  }

  /** Changing queued requests in place keeps the queue in step when each keeps its key and stays in step. */
  lemma QueueChangedInPlace(before: seq<Request>, after: seq<Request>, open: map<Key, OpenSend>, sentBefore: map<Key, nat>, now: int, messages: int)
    requires QueueIsInStep(before, open, sentBefore, now, messages) && |after| == |before|
    requires forall i | 0 <= i < |after| ::
               after[i].GetKey() == before[i].GetKey() && IsInStep(after[i], open, sentBefore, now, messages)
    ensures QueueIsInStep(after, open, sentBefore, now, messages)
  {
    InStepTogether(before, after, open, sentBefore, now, messages);
  }

  lemma LaterHolds(n: Navigator, remote: Remote, now: int, later: int)
    requires NavigatorHolds(n, remote, now) && now <= later
    ensures NavigatorHolds(n, remote, later)
  {
  }

  lemma DropOne(front: seq<Request>, r: Request, back: seq<Request>, open: map<Key, OpenSend>, sentBefore: map<Key, nat>, now: int, messages: int)
    requires QueueIsInStep(front + [r] + back, open, sentBefore, now, messages)
    ensures QueueIsInStep(front + back, open - {r.GetKey()}, sentBefore - {r.GetKey()}, now, messages)
  {
    var before := front + [r] + back;
    var after := front + back;
    assert before[|front|] == r;
    forall i | 0 <= i < |after|
      ensures after[i] == before[if i < |front| then i else i + 1]
      ensures IsInStep(after[i], open - {r.GetKey()}, sentBefore - {r.GetKey()}, now, messages)
    {
      var at := if i < |front| then i else i + 1;
      assert IsInStep(before[at], open, sentBefore, now, messages);
    }
    forall key | key in Keys(before) && key != r.GetKey() ensures key in Keys(after) {
      var i :| 0 <= i < |before| && before[i].GetKey() == key;
      assert after[if i < |front| then i else i - 1].GetKey() == key;
    }
  }

  /** After the drops no kept request is worn out: three sends and a retry window gone by. */
  predicate NoneIsWornOut(pending: seq<Request>, now: int) {
    forall i | 0 <= i < |pending| :: pending[i].attempts >= MAX_TRIGGER_ATTEMPTS ==> !pending[i].RetryWindowElapsed(now)
  }

  predicate LogAndQueueHold(log: seq<Happening>, pending: seq<Request>, view: MenuView, now: int, messages: int) {
    && RecordFits(log, view, now)
    && QueueIsInStep(pending, Summarize(log).open, Summarize(log).sentBeforeTheRestore, now, messages)
  }

  function DropOf(r: Request, now: int, reason: Request -> DropReason): Happening {
    Dropped(now, r.GetKey(), reason(r))
  }

  lemma DropIsJustified(r: Request, s: Summary, remote: Remote, now: int, messages: int)
    requires IsInStep(r, s.open, s.sentBeforeTheRestore, now, messages) && DropReasonFor(r, remote, now) != Keep
    ensures IsJustified(s, now, r.GetKey(), DropReasonFor(r, remote, now))
  {
  }

  lemma LogOneDrop(log: seq<Happening>, pending: seq<Request>, front: seq<Request>, r: Request, back: seq<Request>, remote: Remote,
                   view: MenuView, now: int, messages: int)
    requires LogAndQueueHold(log, pending, view, now, messages) && pending == front + [r] + back
    requires DropReasonFor(r, remote, now) != Keep
    ensures LogAndQueueHold(log + [DropOf(r, now, ReasonsAt(remote, now))], front + back, view, now, messages)
  {
    var s := Summarize(log);
    assert pending[|front|] == r;
    assert IsInStep(pending[|front|], s.open, s.sentBeforeTheRestore, now, messages);
    DropIsJustified(r, s, remote, now, messages);
    DropOne(front, r, back, s.open, s.sentBeforeTheRestore, now, messages);
    DropFits(log, view, r.GetKey(), DropReasonFor(r, remote, now), now);
  }

  lemma OneDropped(log: seq<Happening>, front: seq<Request>, rest: seq<Request>, now: int, reason: Request -> DropReason)
    requires rest != [] && reason(rest[0]) != Keep
    ensures log + Drops(rest, now, reason) == log + [DropOf(rest[0], now, reason)] + Drops(rest[1..], now, reason)
    ensures front + Kept(rest, reason) == front + Kept(rest[1..], reason)
  {
    FirstIsSettled(rest, now, reason);
    Regroup(log, [DropOf(rest[0], now, reason)], Drops(rest[1..], now, reason));
  }

  lemma OneKept(log: seq<Happening>, front: seq<Request>, rest: seq<Request>, now: int, reason: Request -> DropReason)
    requires rest != [] && reason(rest[0]) == Keep
    ensures log + Drops(rest, now, reason) == log + Drops(rest[1..], now, reason)
    ensures front + Kept(rest, reason) == front + [rest[0]] + Kept(rest[1..], reason)
  {
    FirstIsSettled(rest, now, reason);
    Regroup(front, [rest[0]], Kept(rest[1..], reason));
  }

  lemma {:induction false} KeptIsKept(rest: seq<Request>, reason: Request -> DropReason)
    ensures forall i | 0 <= i < |Kept(rest, reason)| :: reason(Kept(rest, reason)[i]) == Keep
  {
    if rest != [] {
      KeptIsKept(rest[1..], reason);
    }
  }

  lemma KeptIsNotWornOut(rest: seq<Request>, remote: Remote, now: int)
    ensures NoneIsWornOut(Kept(rest, ReasonsAt(remote, now)), now)
  {
    KeptIsKept(rest, ReasonsAt(remote, now));
  }

  /** The requests up to `rest` have been looked at, and `front` of them were kept. */
  lemma {:induction false} DropsKeepStep(log: seq<Happening>, pending: seq<Request>, front: seq<Request>, rest: seq<Request>, remote: Remote,
                                         view: MenuView, now: int, messages: int,
                                         logAtTheEnd: seq<Happening>, kept: seq<Request>)
    requires LogAndQueueHold(log, pending, view, now, messages) && pending == front + rest
    requires logAtTheEnd == log + Drops(rest, now, ReasonsAt(remote, now)) && kept == front + Kept(rest, ReasonsAt(remote, now))
    ensures LogAndQueueHold(logAtTheEnd, kept, view, now, messages)
    decreases |rest|
  {
    var reason := ReasonsAt(remote, now);
    if rest == [] {
      assert logAtTheEnd == log && kept == pending;
    } else if reason(rest[0]) != Keep {
      OneDropped(log, front, rest, now, reason);
      assert pending == front + [rest[0]] + rest[1..];
      LogOneDrop(log, pending, front, rest[0], rest[1..], remote, view, now, messages);
      DropsKeepStep(log + [DropOf(rest[0], now, reason)], front + rest[1..], front, rest[1..], remote, view, now, messages,
                    logAtTheEnd, kept);
    } else {
      OneKept(log, front, rest, now, reason);
      assert pending == front + [rest[0]] + rest[1..];
      DropsKeepStep(log, pending, front + [rest[0]], rest[1..], remote, view, now, messages, logAtTheEnd, kept);
    }
  }

  predicate IsNew(request: Request, now: int) {
    && IsArmedVerb(request.verb) && request.args.Obj?
    && request == NewRequest(request.verb, request.args, request.name, request.confirmId, now, request.firesWhileUnderway)
  }

  lemma RequeuedStaysInStep(pending: seq<Request>, request: Request, open: map<Key, OpenSend>, sentBefore: map<Key, nat>, now: int, messages: int)
    requires QueueIsInStep(pending, open, sentBefore, now, messages)
    requires IsNew(request, now) && 0 <= now
    ensures QueueIsInStep(Requeued(pending, request), open, sentBefore, now, messages)
  {
    var i := IndexOf(pending, request.GetKey());
    var after := Requeued(pending, request);
    if i == |pending| {
      KeysStay(pending, after);
      assert request.GetKey() !in Keys(pending);
      assert forall j | 0 <= j < |pending| :: after[j] == pending[j];
    } else {
      assert IsInStep(pending[i], open, sentBefore, now, messages);
      assert IsInStep(after[|pending| - 1], open, sentBefore, now, messages);
      MovedToTheEnd(pending, after, i);
    }
  }

  lemma MovedToTheEnd(before: seq<Request>, after: seq<Request>, i: nat)
    requires i < |before| == |after| && HasNoTwins(before)
    requires after[..|before| - 1] == before[..i] + before[i + 1..]
    requires after[|before| - 1].GetKey() == before[i].GetKey()
    ensures HasNoTwins(after) && Keys(before) <= Keys(after)
    ensures forall j | 0 <= j < |before| - 1 :: after[j] in before
  {
    assert forall j | 0 <= j < |before| - 1 :: after[j] == after[..|before| - 1][j] == before[if j < i then j else j + 1];
    forall key | key in Keys(before) ensures key in Keys(after) {
      var j :| 0 <= j < |before| && before[j].GetKey() == key;
      assert after[if j < i then j else if j == i then |before| - 1 else j - 1].GetKey() == key;
    }
  }

  lemma KeysStay(before: seq<Request>, after: seq<Request>)
    requires |before| <= |after| && forall j | 0 <= j < |before| :: after[j] == before[j]
    ensures Keys(before) <= Keys(after)
  {
    forall key | key in Keys(before) ensures key in Keys(after) {
      var j :| 0 <= j < |before| && before[j].GetKey() == key;
      assert after[j].GetKey() == key;
    }
  }

  // ----- Sending -----

  lemma CommandKeeps(n: Navigator, verb: Verb, remote: Remote, now: int)
    requires NavigatorHolds(n, remote, now) && !IsArmedVerb(verb)
    requires verb == MenuClose && remote.menu.shown ==> n.menuOwner == Client
    requires verb == MenuToggle ==> !remote.menu.shown
    ensures NavigatorHolds(Send(n, Command(verb, now, remote)), remote, now)
  {
    var sent := Send(n, Command(verb, now, remote));
    assert sent.pending == n.pending;
    if CanSend(n) {
      CommandFits(n.log, ViewOf(n, remote), verb, now, remote);
      assert sent.log == n.log + [Command(verb, now, remote)];
    } else {
      assert sent.log == n.log && ViewOf(sent, remote) == ViewOf(n, remote);
    }
  }

  lemma AfterACommand(s: Summary, verb: Verb, now: int, remote: Remote)
    requires !IsArmedVerb(verb)
    ensures After(s, Command(verb, now, remote))
            == s.(now := now, owed := false, asked := if AsksGsxForAMenu(verb) then Some(now) else s.asked)
  {
  }

  lemma CommandFits(log: seq<Happening>, view: MenuView, verb: Verb, now: int, remote: Remote)
    requires RecordFits(log, view, now) && !IsArmedVerb(verb) && view.screen == remote.menu.shown
    requires verb == MenuClose && remote.menu.shown ==> view.owner == Client
    requires verb == MenuToggle ==> !remote.menu.shown
    ensures var more := log + [Command(verb, now, remote)];
            && RecordFits(more, view.(asked := if AsksGsxForAMenu(verb) then Some(now) else view.asked), now)
            && RequestsAreTheSame(Summarize(more), Summarize(log))
  {
    OneMore(log, Command(verb, now, remote));
    AfterACommand(Summarize(log), verb, now, remote);
  }

  lemma StampedIsInStep(r: Request, remote: Remote, open: map<Key, OpenSend>, sentBefore: map<Key, nat>, now: int)
    requires IsInStep(r, open, sentBefore, now, remote.messagesShown) && 0 <= now && r.attempts < MAX_TRIGGER_ATTEMPTS
    ensures IsInStep(Stamped(r, now, remote), open[r.GetKey() := OpenSend(now, r.attempts + 1, false)], sentBefore - {r.GetKey()},
                     now, remote.messagesShown)
  {
  }

  lemma OtherStaysInStep(r: Request, key: Key, last: OpenSend, open: map<Key, OpenSend>, sentBefore: map<Key, nat>, now: int, messages: int)
    requires IsInStep(r, open, sentBefore, now, messages) && r.GetKey() != key
    ensures IsInStep(r, open[key := last], sentBefore - {key}, now, messages)
  {
  }

  lemma StampedStaysInStep(pending: seq<Request>, i: nat, remote: Remote, open: map<Key, OpenSend>, sentBefore: map<Key, nat>, now: int)
    requires QueueIsInStep(pending, open, sentBefore, now, remote.messagesShown) && 0 <= now
    requires i < |pending| && 0 <= pending[i].attempts < MAX_TRIGGER_ATTEMPTS
    ensures var key := pending[i].GetKey();
            QueueIsInStep(pending[i := Stamped(pending[i], now, remote)], open[key := OpenSend(now, pending[i].attempts + 1, false)],
                          sentBefore - {key}, now, remote.messagesShown)
  {
    var key := pending[i].GetKey();
    var last := OpenSend(now, pending[i].attempts + 1, false);
    var after := pending[i := Stamped(pending[i], now, remote)];
    forall j | 0 <= j < |after|
      ensures after[j].GetKey() == pending[j].GetKey()
      ensures IsInStep(after[j], open[key := last], sentBefore - {key}, now, remote.messagesShown)
    {
      assert IsInStep(pending[j], open, sentBefore, now, remote.messagesShown);
      if j == i {
        StampedIsInStep(pending[i], remote, open, sentBefore, now);
      } else {
        OtherStaysInStep(pending[j], key, last, open, sentBefore, now, remote.messagesShown);
      }
    }
    assert key in Keys(pending);
    InStepTogether(pending, after, open[key := last], sentBefore - {key}, now, remote.messagesShown);
  }

  /** A queued request counts the sends that the record holds of it. */
  lemma AttemptsAreTheSends(r: Request, s: Summary, now: int, messages: int)
    requires IsInStep(r, s.open, s.sentBeforeTheRestore, now, messages)
    ensures SendsIn(s, r.GetKey()) == r.attempts
  {
  }

  lemma DueMayBeSent(r: Request, s: Summary, remote: Remote, now: int)
    requires IsInStep(r, s.open, s.sentBeforeTheRestore, now, remote.messagesShown) && r.IsDueToSend(now)
    requires r.attempts >= MAX_TRIGGER_ATTEMPTS ==> !r.RetryWindowElapsed(now)
    ensures r.attempts < MAX_TRIGGER_ATTEMPTS && MayBeSent(s, now, r.GetKey(), r.UndoneByASecondSend())
  {
    AttemptsAreTheSends(r, s, now, remote.messagesShown);
  }

  lemma DeliverDoes(n: Navigator, remote: Remote, now: int, i: nat)
    requires i < |n.pending| && IsArmedVerb(n.pending[i].verb)
    ensures var delivered := Deliver(n, remote, now, i);
            && delivered.menuOwner == n.menuOwner
            && if CanSend(n) then
                 && delivered.pending == n.pending[i := Stamped(n.pending[i], now, remote)]
                 && delivered.log == n.log + [Delivery(n.pending[i], now, remote)]
                 && delivered.menuRequestedMs == Some(now)
               else
                 delivered.pending == n.pending && delivered.log == n.log && delivered.menuRequestedMs == n.menuRequestedMs
  {
  }

  lemma DeliveryKeepsStep(log: seq<Happening>, pending: seq<Request>, view: MenuView, remote: Remote, now: int, i: nat)
    requires LogAndQueueHold(log, pending, view, now, remote.messagesShown) && 0 <= now
    requires i < |pending| && IsArmedVerb(pending[i].verb) && 0 <= pending[i].attempts < MAX_TRIGGER_ATTEMPTS
    requires IsAllowed(Summarize(log), Delivery(pending[i], now, remote))
    ensures LogAndQueueHold(log + [Delivery(pending[i], now, remote)], pending[i := Stamped(pending[i], now, remote)],
                            view.(asked := Some(now)), now, remote.messagesShown)
  {
    var s := Summarize(log);
    AttemptsAreTheSends(pending[i], s, now, remote.messagesShown);
    StampedStaysInStep(pending, i, remote, s.open, s.sentBeforeTheRestore, now);
    DeliveryFits(log, view, pending[i], now, remote);
  }

  lemma DeliverKeeps(n: Navigator, remote: Remote, now: int, i: nat)
    requires NavigatorHolds(n, remote, now)
    requires i < |n.pending| && n.pending[i].IsDueToSend(now) && NoneIsWornOut(n.pending, now)
    requires remote.menu.shown ==> n.menuOwner == Client
    ensures NavigatorHolds(Deliver(n, remote, now, i), remote, now)
  {
    var s := Summarize(n.log);
    assert IsInStep(n.pending[i], s.open, s.sentBeforeTheRestore, now, remote.messagesShown);
    DueMayBeSent(n.pending[i], s, remote, now);
    DeliveryKeepsStep(n.log, n.pending, ViewOf(n, remote), remote, now, i);
    DeliverDoes(n, remote, now, i);
  }

  lemma HeldInPlaceKeeps(n: Navigator, after: seq<Request>, remote: Remote, now: int)
    requires NavigatorHolds(n, remote, now) && |after| == |n.pending|
    requires var s := Summarize(n.log);
             forall i | 0 <= i < |after| ::
               && after[i].GetKey() == n.pending[i].GetKey()
               && IsInStep(after[i], s.open, s.sentBeforeTheRestore, now, remote.messagesShown)
    ensures NavigatorHolds(n.(pending := after), remote, now)
  {
    QueueChangedInPlace(n.pending, after, Summarize(n.log).open, Summarize(n.log).sentBeforeTheRestore, now, remote.messagesShown);
  }

  lemma SendRequestKeeps(n: Navigator, remote: Remote, now: int, i: nat)
    requires NavigatorHolds(n, remote, now)
    requires remote.menu.shown <==> n.menuOwner != Nobody
    requires i < |n.pending| && n.pending[i].IsDueToSend(now) && NoneIsWornOut(n.pending, now)
    ensures NavigatorHolds(SendRequest(n, remote, now, i), remote, now)
  {
    if !remote.menu.shown {
      DeliverKeeps(n, remote, now, i);
    } else if n.menuOwner == Pilot {
      HeldInPlaceKeeps(n, n.pending[i := n.pending[i].(heldBehindThePilotsMenu := true)], remote, now);
    } else {
      CommandKeeps(n, MenuClose, remote, now);
      if CanSend(n) {
        DeliverKeeps(Send(n, Command(MenuClose, now, remote)).(watchedSig := None), remote, now, i);
      }
    }
  }

  // ----- The passes -----

  lemma HeldIsDue(n: Navigator, remote: Remote, now: int)
    requires NavigatorHolds(n, remote, now)
    ensures LookingIsDue(n, remote, now)
  {
  }

  lemma GivenUpFits(log: seq<Happening>, view: MenuView, now: int)
    requires IsLawful(log) && 0 <= Summarize(log).now <= now && ViewIn(Summarize(log)) == view
    requires Summarize(log).owed ==> Summarize(log).now == now
    requires !view.screen && view.owner != Nobody
    ensures var more := log + [Hidden(now, view.owner)];
            && RecordFits(more, MenuView(Nobody, if view.owner == Client then Some(now) else view.asked, false), now)
            && RequestsAreTheSame(Summarize(more), Summarize(log))
  {
    OneMore(log, Hidden(now, view.owner));
  }

  lemma JudgedFits(log: seq<Happening>, view: MenuView, owner: MenuOwner, now: int)
    requires IsLawful(log) && 0 <= Summarize(log).now <= now && ViewIn(Summarize(log)) == view
    requires Summarize(log).owed ==> Summarize(log).now == now
    requires view.screen && view.owner == Nobody && owner != Nobody
    requires owner == Client <==> view.asked.Some? && now - view.asked.value < MENU_OWNERSHIP_WINDOW_MS
    ensures var more := log + [FirstSeen(now, owner)];
            RecordFits(more, view.(owner := owner), now) && RequestsAreTheSame(Summarize(more), Summarize(log))
  {
    OneMore(log, FirstSeen(now, owner));
  }

  lemma TrackKeeps(n: Navigator, remote: Remote, now: int)
    requires LookingIsDue(n, remote, now)
    ensures var tracked := TrackMenuOwner(n, remote, now);
            && NavigatorHolds(tracked, remote, now)
            && (remote.menu.shown <==> tracked.menuOwner != Nobody)
  {
    if !remote.menu.shown && n.menuOwner != Nobody {
      GivenUpFits(n.log, ViewOf(n, remote), now);
    } else if remote.menu.shown && n.menuOwner == Nobody {
      JudgedFits(n.log, ViewOf(n, remote), if AnswersAClientRequest(n, now) then Client else Pilot, now);
    }
  }

  lemma RestartKeeps(n: Navigator, remote: Remote, now: int)
    requires NavigatorHolds(n, remote, now)
    ensures NavigatorHolds(RestartTheUnsentClocks(n, now), remote, now)
  {
    HeldInPlaceKeeps(n, AllRearmed(n.pending, now), remote, now);
  }

  lemma MarkKeeps(n: Navigator, remote: Remote, now: int)
    requires NavigatorHolds(n, remote, now)
    ensures NavigatorHolds(MarkTheRefusedToggles(n, remote, now), remote, now)
  {
    HeldInPlaceKeeps(n, AllMarked(n.pending, remote, now), remote, now);
  }

  lemma DropKeeps(n: Navigator, remote: Remote, now: int)
    requires NavigatorHolds(n, remote, now)
    ensures var kept := DropTheSettled(n, remote, now);
            NavigatorHolds(kept, remote, now) && NoneIsWornOut(kept.pending, now)
  {
    var kept := DropTheSettled(n, remote, now);
    DropsKeepStep(n.log, n.pending, [], n.pending, remote, ViewOf(n, remote), now, remote.messagesShown, kept.log, kept.pending);
    KeptIsNotWornOut(n.pending, remote, now);
  }

  lemma ServeKeeps(n: Navigator, remote: Remote, now: int)
    requires NavigatorHolds(n, remote, now)
    requires remote.menu.shown <==> n.menuOwner != Nobody
    requires NoneIsWornOut(n.pending, now)
    ensures NavigatorHolds(ServeTheQueue(n, remote, now), remote, now)
  {
    var i := FirstDue(n.pending, now);
    if i < |n.pending| {
      if HoldsForAnUntakenToggle(n, now) {
        HeldInPlaceKeeps(n, n.pending[i := n.pending[i].(heldBehindAToggle := true)], remote, now);
      } else {
        SendRequestKeeps(n, remote, now, i);
      }
    }
  }

  lemma LookingKeeps(n: Navigator, remote: Remote, now: int)
    requires NavigatorHolds(n, remote, now)
    ensures var restarted := RestartTheUnsentClocks(TrackMenuOwner(n, remote, now), now);
            NavigatorHolds(restarted, remote, now) && (remote.menu.shown <==> restarted.menuOwner != Nobody)
  {
    HeldIsDue(n, remote, now);
    TrackKeeps(n, remote, now);
    RestartKeeps(TrackMenuOwner(n, remote, now), remote, now);
  }

  lemma SettlingKeeps(n: Navigator, remote: Remote, now: int)
    requires NavigatorHolds(n, remote, now)
    ensures var settled := MarkTheRefusedToggles(DropTheSettled(n, remote, now), remote, now);
            NavigatorHolds(settled, remote, now) && NoneIsWornOut(settled.pending, now) && settled.menuOwner == n.menuOwner
  {
    DropKeeps(n, remote, now);
    MarkKeeps(DropTheSettled(n, remote, now), remote, now);
  }

  lemma TidyingKeeps(n: Navigator, remote: Remote, now: int)
    requires NavigatorHolds(n, remote, now)
    ensures var tidied := TidyTheQueue(n, remote, now);
            NavigatorHolds(tidied, remote, now) && NoneIsWornOut(tidied.pending, now) && (remote.menu.shown <==> tidied.menuOwner != Nobody)
  {
    LookingKeeps(n, remote, now);
    SettlingKeeps(RestartTheUnsentClocks(TrackMenuOwner(n, remote, now), now), remote, now);
  }

  lemma PumpKeeps(n: Navigator, remote: Remote, now: int, pass: Pass)
    requires NavigatorHolds(n, remote, now)
    ensures NavigatorHolds(PumpRequests(n, remote, now, pass), remote, now)
  {
    TidyingKeeps(n, remote, now);
    ServeKeeps(TidyTheQueue(n, remote, now), remote, now);
  }

  lemma ResyncKeeps(n: Navigator, remote: Remote, now: int, pass: Pass)
    requires NavigatorHolds(n, remote, now)
    ensures NavigatorHolds(MaybeResyncStalledMenu(n, remote, now, pass), remote, now)
  {
    if n.menuOwner == Client {
      CloseStaleKeeps(n, remote, now);
    }
    DiscardKeeps(n, remote, now, MenuSignature(remote.menu));
    SnapshotRequestKeeps(n, remote, now);
    assert IsRepositionLeftover(n, remote, now) ==> n.menuOwner == Client;
  }

  lemma CloseStaleKeeps(n: Navigator, remote: Remote, now: int)
    requires NavigatorHolds(n, remote, now) && n.menuOwner == Client
    ensures NavigatorHolds(CloseStaleMenu(n, remote, now), remote, now)
  {
    CommandKeeps(n.(watchedSinceMs := now), MenuClose, remote, now);
  }

  lemma SnapshotRequestKeeps(n: Navigator, remote: Remote, now: int)
    requires NavigatorHolds(n, remote, now)
    ensures NavigatorHolds(AskForASnapshot(n, remote, now), remote, now)
  {
    CommandKeeps(n.(watchedSinceMs := now), StateGet, remote, now);
  }

  lemma DiscardKeeps(n: Navigator, remote: Remote, now: int, sig: string)
    requires NavigatorHolds(n, remote, now)
    ensures NavigatorHolds(DiscardStuckMenu(n, remote, now, sig), remote, now)
  {
    if n.menuOwner == Client {
      CommandKeeps(n.(watchedSinceMs := now), MenuClose, remote, now);
    }
  }

  lemma MenuChangedKeeps(n: Navigator, remote: Remote, now: int, pass: Pass)
    requires LookingIsDue(n, remote, now)
    ensures NavigatorHolds(OnMenuChanged(n, remote, now, pass), remote, now)
  {
    var begun := BeginPass(n, pass);
    var tracked := TrackMenuOwner(begun, remote, now);
    TrackKeeps(begun, remote, now);
    var resynced := MaybeResyncStalledMenu(tracked, remote, now, pass);
    ResyncKeeps(tracked, remote, now, pass);
    CommandKeeps(resynced, MenuPick, remote, now);
    PumpKeeps(HandleMenu(begun, remote, now, pass), remote, now, pass);
  }

  lemma ArmKeeps(n: Navigator, remote: Remote, now: int, pass: Pass, request: Request)
    requires NavigatorHolds(n, remote, now) && 0 <= now
    requires IsNew(request, now)
    ensures NavigatorHolds(ArmRequest(n, remote, now, pass, request), remote, now)
  {
    RequeuedStaysInStep(n.pending, request, Summarize(n.log).open, Summarize(n.log).sentBeforeTheRestore, now, remote.messagesShown);
    PumpKeeps(BeginPass(n, pass).(pending := Requeued(n.pending, request)), remote, now, pass);
  }

  lemma ToggleMenuKeeps(n: Navigator, remote: Remote, now: int)
    requires NavigatorHolds(n, remote, now)
    ensures NavigatorHolds(ToggleMenu(n, remote, now), remote, now)
  {
    if !remote.menu.shown {
      CommandKeeps(n, MenuToggle, remote, now);
    }
  }

  lemma PickNowKeeps(n: Navigator, remote: Remote, now: int, pass: Pass)
    requires NavigatorHolds(n, remote, now)
    ensures NavigatorHolds(PickNowOrArm(n, remote, now, pass), remote, now)
  {
    var begun := BeginPass(n, pass);
    CommandKeeps(begun, MenuPick, remote, now);
    ToggleMenuKeeps(OpenIntent(begun, ServiceIntent, now), remote, now);
    ToggleMenuKeeps(OpenIntent(PickEntry(begun, remote, now), ServiceIntent, now), remote, now);
  }

  lemma DisableKeeps(n: Navigator, remote: Remote, now: int, pass: Pass)
    requires NavigatorHolds(n, remote, now)
    ensures NavigatorHolds(DisableGsxMenu(n, remote, now, pass), remote, now)
  {
    var tracked := TrackMenuOwner(BeginPass(n, pass), remote, now);
    TrackKeeps(BeginPass(n, pass), remote, now);
    if tracked.menuOwner != Pilot {
      CommandKeeps(tracked, MenuClose, remote, now);
    }
  }

  // ----- Restoring -----

  predicate IsReread(r: Request, now: int) {
    && IsArmedVerb(r.verb) && r.args.Obj? && 0 <= r.attempts <= MAX_TRIGGER_ATTEMPTS
    && !r.refused && r.messagesAtSend == -1
    && 0 <= r.lastSentMs <= now && 0 <= r.armedMs <= now
  }

  lemma ReaderRereads(now: int)
    requires 0 <= now
    ensures forall json: Json :: Reader(now)(json).Some? ==> IsReread(Reader(now)(json).value, now)
  {
  }

  lemma {:induction false} RestoredQueue(items: seq<Json>, read: Json -> Option<Request>, now: int)
    requires forall json: Json :: read(json).Some? ==> IsReread(read(json).value, now)
    ensures var queue := PendingFrom(items, read);
            HasNoTwins(queue) && forall i | 0 <= i < |queue| :: IsReread(queue[i], now)
  {
    if items != [] {
      RestoredQueue(items[..|items| - 1], read, now);
    }
  }

  /** The counts of a queue without twins are those of its requests that were sent. */
  lemma {:induction false} CountsAreTheQueues(queue: seq<Request>)
    requires HasNoTwins(queue)
    ensures forall i | 0 <= i < |queue| :: queue[i].GetKey() in SentCounts(queue) <==> queue[i].WasSent()
    ensures forall i | 0 <= i < |queue| && queue[i].WasSent() :: SentCounts(queue)[queue[i].GetKey()] == queue[i].attempts
    ensures forall key | key in SentCounts(queue) :: exists i :: 0 <= i < |queue| && queue[i].WasSent() && queue[i].GetKey() == key
  {
    if queue != [] {
      var n := |queue| - 1;
      CountsAreTheQueues(queue[..n]);
      assert queue == queue[..n] + [queue[n]];
      forall key | key in SentCounts(queue) ensures exists i :: 0 <= i < |queue| && queue[i].WasSent() && queue[i].GetKey() == key {
        if key in SentCounts(queue[..n]) {
          var i :| 0 <= i < n && queue[..n][i].WasSent() && queue[..n][i].GetKey() == key;
          assert queue[i].WasSent() && queue[i].GetKey() == key;
        }
      }
    }
  }

  lemma RestoredQueueIsInStep(queue: seq<Request>, now: int, messages: int)
    requires HasNoTwins(queue) && 0 <= now && forall i | 0 <= i < |queue| :: IsReread(queue[i], now)
    ensures QueueIsInStep(queue, map[], SentCounts(queue), now, messages)
    ensures forall key | key in SentCounts(queue) :: 1 <= SentCounts(queue)[key] <= MAX_TRIGGER_ATTEMPTS
  {
    CountsAreTheQueues(queue);
    forall i | 0 <= i < |queue| ensures IsInStep(queue[i], map[], SentCounts(queue), now, messages) {
    }
  }

  lemma RestoreKeeps(n: Navigator, memory: Json, remote: Remote, now: int)
    requires NavigatorHolds(n, remote, now)
    ensures NavigatorHolds(RestoreMemory(n, memory, now), remote, now)
  {
    var queue := PendingFrom(ItemsOf(memory), Reader(now));
    ReaderRereads(now);
    RestoredQueue(ItemsOf(memory), Reader(now), now);
    RestoredQueueHolds(n.log, ViewOf(n, remote), queue, remote.messagesShown, now);
  }

  lemma RestoredQueueHolds(log: seq<Happening>, view: MenuView, queue: seq<Request>, messages: int, now: int)
    requires RecordFits(log, view, now)
    requires HasNoTwins(queue) && 0 <= now && forall i | 0 <= i < |queue| :: IsReread(queue[i], now)
    ensures LogAndQueueHold(log + [Restored(now, SentCounts(queue))], AllRearmed(queue, now), MenuView(Nobody, None, view.screen), now, messages)
  {
    RestoredQueueIsInStep(queue, now, messages);
    QueueChangedInPlace(queue, AllRearmed(queue, now), map[], SentCounts(queue), now, messages);
    RestoredFits(log, view, SentCounts(queue), now);
  }

  lemma RestoredFits(log: seq<Happening>, view: MenuView, counts: map<Key, nat>, now: int)
    requires RecordFits(log, view, now) && forall key | key in counts :: 1 <= counts[key] <= MAX_TRIGGER_ATTEMPTS
    ensures var more := log + [Restored(now, counts)];
            && RecordFits(more, MenuView(Nobody, None, view.screen), now)
            && Summarize(more).open == map[] && Summarize(more).sentBeforeTheRestore == counts
  {
    OneMore(log, Restored(now, counts));
  }

  // ----- Runs -----

  lemma ObservedKeeps(n: Navigator, remote: Remote, at: int, driving: bool, snapshot: bool, pass: Pass)
    requires LookingIsDue(n, remote, at)
    ensures NavigatorHolds(Observed(n, remote, at, driving, snapshot, pass), remote, at)
  {
    TrackKeeps(n, remote, at);
    MenuChangedKeeps(if snapshot then n.(resyncPending := false) else n, remote, at, pass);
  }

  lemma MessageKeeps(n: Navigator, remote: Remote, text: string, now: int)
    requires NavigatorHolds(n, remote, now)
    ensures NavigatorHolds(n.(log := n.log + [MessageShown(now)]),
                           remote.(messagesShown := remote.messagesShown + 1, lastMessage := text), now)
  {
    OneMore(n.log, MessageShown(now));
    var s := Summarize(n.log);
    var after := After(s, MessageShown(now));
    forall i | 0 <= i < |n.pending|
      ensures IsInStep(n.pending[i], after.open, after.sentBeforeTheRestore, now, remote.messagesShown + 1)
    {
      assert IsInStep(n.pending[i], s.open, s.sentBeforeTheRestore, now, remote.messagesShown);
    }
  }

  lemma ConnectionKeeps(n: Navigator, remote: Remote, connected: bool, now: int)
    requires NavigatorHolds(n, remote, now)
    ensures NavigatorHolds(if connected then n.(log := n.log + [Reconnected(now)]) else n, ApplyConnection(remote, connected), now)
  {
    if connected {
      OneMore(n.log, Reconnected(now));
      var s := Summarize(n.log);
      forall i | 0 <= i < |n.pending| ensures IsInStep(n.pending[i], s.open, s.sentBeforeTheRestore, now, 0) {
        assert IsInStep(n.pending[i], s.open, s.sentBeforeTheRestore, now, remote.messagesShown);
      }
    }
  }

  lemma NotedIsDue(n: Navigator, remote: Remote, menu: RemoteMenu, at: int)
    requires NavigatorHolds(n, remote, at)
    ensures LookingIsDue(Noted(n, menu, at), remote.(menu := menu), at)
  {
    OneMore(n.log, MenuPublished(at, menu.shown));
  }

  lemma PublishKeeps(n: Navigator, remote: Remote, at: int, publication: Publication, driving: bool, pass: Pass)
    requires NavigatorHolds(n, remote, at)
    ensures var after := Publish(n, remote, at, publication, driving, pass);
            NavigatorHolds(after.nav, after.remote, at) && after.clock == at
  {
    match publication {
      case Services(_) =>
      case Menu(menu) =>
        NotedIsDue(n, remote, menu, at);
        ObservedKeeps(Noted(n, menu, at), remote.(menu := menu), at, driving, false, pass);
      case Snapshot(menu, services) =>
        NotedIsDue(n, remote, menu, at);
        ObservedKeeps(Noted(n, menu, at), remote.(menu := menu, services := services, synced := true), at, driving, true, pass);
      case Message(text) =>
        MessageKeeps(n, remote, text, at);
      case Connection(connected) =>
        ConnectionKeeps(n, remote, connected, at);
    }
  }

  lemma TriggerKeeps(n: Navigator, remote: Remote, now: int, pass: Pass, serviceId: string, fires: bool)
    requires NavigatorHolds(n, remote, now) && 0 <= now
    ensures NavigatorHolds(TriggerService(n, remote, now, pass, serviceId, fires), remote, now)
  {
    ArmKeeps(OpenIntent(n, ServiceIntent, now), remote, now, pass,
             NewRequest(ServiceTrigger, Obj(map["service" := Str(serviceId)]), serviceId, serviceId, now, fires));
  }

  lemma ClearanceKeeps(n: Navigator, remote: Remote, now: int, pass: Pass)
    requires NavigatorHolds(n, remote, now) && 0 <= now
    ensures NavigatorHolds(RequestDepartureClearance(n, remote, now, pass), remote, now)
  {
    ArmKeeps(OpenIntent(n, ServiceIntent, now), remote, now, pass,
             NewRequest(ServiceTrigger, Obj(map["service" := Str("Departure")]), "Departure", "", now, false));
  }

  lemma SimbriefKeeps(n: Navigator, remote: Remote, now: int, pass: Pass)
    requires NavigatorHolds(n, remote, now) && 0 <= now
    ensures NavigatorHolds(RequestSimbriefLoad(n, remote, now, pass), remote, now)
  {
    ArmKeeps(n, remote, now, pass,
             NewRequest(CommandRun, Obj(map["command" := Str("RELOAD_SIMBRIEF")]), "RELOAD_SIMBRIEF", "", now, false));
  }

  lemma RepositionKeeps(n: Navigator, remote: Remote, now: int, pass: Pass)
    requires NavigatorHolds(n, remote, now)
    ensures NavigatorHolds(RepositionAircraft(n, remote, now, pass), remote, now)
  {
    ToggleMenuKeeps(BeginPass(OpenIntent(n, RepositionIntent, now).(reposition := Opening), pass), remote, now);
  }

  lemma CompleteKeeps(n: Navigator, remote: Remote, now: int, pass: Pass)
    requires NavigatorHolds(n, remote, now)
    ensures NavigatorHolds(CompleteService(n, remote, now, pass), remote, now)
  {
    ToggleMenuKeeps(BeginPass(OpenIntent(n, ServiceIntent, now), pass), remote, now);
  }

  lemma ForgetKeeps(n: Navigator, remote: Remote, now: int)
    requires NavigatorHolds(n, remote, now)
    ensures NavigatorHolds(Reset(n, now), remote, now)
  {
    OneMore(n.log, Forgotten(now));
  }

  lemma AskKeeps(n: Navigator, remote: Remote, at: int, asking: Asking, pass: Pass)
    requires NavigatorHolds(n, remote, at) && 0 <= at
    ensures NavigatorHolds(Ask(n, remote, at, asking, pass), remote, at)
  {
    match asking {
      case Trigger(serviceId, fires) => TriggerKeeps(n, remote, at, pass, serviceId, fires);
      case Clearance => ClearanceKeeps(n, remote, at, pass);
      case SimbriefLoad => SimbriefKeeps(n, remote, at, pass);
      case Reposition => RepositionKeeps(n, remote, at, pass);
      case Complete => CompleteKeeps(n, remote, at, pass);
      case PickNow => PickNowKeeps(n, remote, at, pass);
      case Disable => DisableKeeps(n, remote, at, pass);
    }
  }

  lemma ManageKeeps(n: Navigator, remote: Remote, at: int, managing: Managing)
    requires NavigatorHolds(n, remote, at) && 0 <= at
    ensures NavigatorHolds(Manage(n, remote, at, managing), remote, at)
  {
    match managing {
      case Tick(pass) => MenuChangedKeeps(n, remote, at, pass);
      case Hold(_) =>
      case Forget => ForgetKeeps(n, remote, at);
      case Restore(memory) => RestoreKeeps(n, memory, remote, at);
    }
  }

  lemma StepKeeps(s: System, t: Timed)
    requires Holds(s) && s.clock <= t.at && 0 <= t.at
    ensures Holds(Take(s, t)) && Take(s, t).clock == t.at
  {
    LaterHolds(s.nav, s.remote, s.clock, t.at);
    match t.step {
      case Published(publication, driving, pass) => PublishKeeps(s.nav, s.remote, t.at, publication, driving, pass);
      case Asked(asking, pass) => AskKeeps(s.nav, s.remote, t.at, asking, pass);
      case Managed(managing) => ManageKeeps(s.nav, s.remote, t.at, managing);
    }
  }

  /**
    In every run, whatever GSX publishes and however many sends it refuses: no two queued requests share verb
    and label, no request counts more than three attempts, only a request sent once or twice is marked refused,
    and the record of what happened is lawful.
  */
  lemma {:induction false} EveryRunHolds(steps: seq<Timed>)
    requires IsOrdered(steps)
    ensures Holds(Run(steps)) && Run(steps).clock == EndOf(steps) >= 0
  {
    if steps != [] {
      var n := |steps| - 1;
      EveryRunHolds(steps[..n]);
      StepKeeps(Run(steps[..n]), steps[n]);
    }
  }
}
