/**
  The request queue and the menu on screen, as `GsxMenuNavigator` handles them: what each of its
  operations leaves behind.  Every operation reads the clock once (`now`), and the wire's answers are an
  input: a pass sends until the first refusal and then not again, so `willAccept`, the number of sends the
  wire still takes, stands for any sequence of answers.
*/
module NavigatorModel {
  import opened Options
  import opened Json
  import opened GsxRemote
  import opened Texts

  // ----- Commands and requests -----

  datatype Verb = ServiceTrigger | CommandRun | MenuClose | MenuToggle | MenuPick | StateGet

  function VerbText(verb: Verb): string {
    match verb
    case ServiceTrigger => "service.trigger"
    case CommandRun => "command.run"
    case MenuClose => "menu.close"
    case MenuToggle => "menu.toggle"
    case MenuPick => "menu.pick"
    case StateGet => "state.get"
  }

  predicate IsArmedVerb(verb: Verb) {
    verb == ServiceTrigger || verb == CommandRun
  }

  predicate AsksGsxForAMenu(verb: Verb) {
    verb == MenuToggle || IsArmedVerb(verb)
  }

  const RESYNC_DELAY_MS := 1500
  const MAX_RESYNCS := 3
  const MENU_SETTLE_MS := 1500
  const MENU_OWNERSHIP_WINDOW_MS := 3000
  const TRIGGER_RETRY_MS := 20000
  const TOGGLE_GIVE_UP_MS := 90000
  const REFUSAL_SETTLE_MS := 3000
  const MAX_TRIGGER_ATTEMPTS := 3
  const INTENT_TTL_MS := 60000

  /** The services that a second request undoes. */
  predicate ASecondPickUndoesIt(serviceId: string) {
    serviceId == "OperateStairs" || serviceId == "OperateJetways" || serviceId == "GPU"
  }

  datatype Key = Key(verb: Verb, name: string)

  datatype Request = Request(
    verb: Verb,
    args: Json,
    name: string,
    confirmId: string,
    lastSentMs: int,
    armedMs: int,
    attempts: int,
    firesWhileUnderway: bool,
    heldBehindThePilotsMenu: bool,
    heldBehindAToggle: bool,
    refused: bool,
    messagesAtSend: int)
  {
    function GetKey(): Key { Key(verb, name) }
    predicate WasSent() { attempts > 0 }
    predicate UndoneByASecondSend() { ASecondPickUndoesIt(confirmId) }
    predicate RetryWindowElapsed(now: int) { now - lastSentMs >= TRIGGER_RETRY_MS }
    predicate GiveUpWindowElapsed(now: int) { now - lastSentMs >= TOGGLE_GIVE_UP_MS }
    predicate LeftUnsentForTooLong(now: int) { !WasSent() && now - armedMs >= TOGGLE_GIVE_UP_MS }
    predicate IsAToggleAwaitingGsx(now: int) {
      WasSent() && UndoneByASecondSend() && !refused && !RetryWindowElapsed(now)
    }
    predicate IsDueToSend(now: int) {
      !WasSent() || refused || (!UndoneByASecondSend() && RetryWindowElapsed(now))
    }
  }

  function NewRequest(verb: Verb, args: Json, name: string, confirmId: string, now: int, firesWhileUnderway: bool): Request {
    Request(verb, args, name, confirmId, 0, now, 0, firesWhileUnderway, false, false, false, -1)
  }

  datatype DropReason = Keep | Taken | AlreadyUnderway | ToggleGaveUp | NeverTaken | NeverLeft

  datatype MenuOwner = Nobody | Pilot | Client

  datatype Intent = NoIntent | RepositionIntent | ServiceIntent

  datatype Walk = Idle | Opening | PickingRoot | AwaitingSubmenu | Done

  // ----- What happened, in order -----

  /** The record that the properties are stated on.  The navigator itself never reads it. */
  datatype Happening =
    | Sent(at: int, verb: Verb, name: string, toggle: bool, shown: bool)
    | Dropped(at: int, key: Key, reason: DropReason)
    | Forgotten(at: int)
    | Restored(at: int, sentBefore: map<Key, nat>)
    | MessageShown(at: int)
    | MenuPublished(at: int, shown: bool)
    | Reconnected(at: int)
    | FirstSeen(at: int, owner: MenuOwner)
    | Hidden(at: int, owner: MenuOwner)

  datatype Navigator = Navigator(
    pending: seq<Request>,
    menuOwner: MenuOwner,
    menuRequestedMs: Option<int>,
    lastActionMs: int,
    watchedSig: Option<string>,
    watchedSinceMs: int,
    resyncCount: int,
    resyncPending: bool,
    discardedSig: string,
    intent: Intent,
    intentSinceMs: int,
    reposition: Walk,
    requestsHeld: bool,
    sendRefused: bool,
    willAccept: nat,
    log: seq<Happening>)

  const START := Navigator([], Nobody, None, 0, None, 0, 0, false, "", NoIntent, 0, Idle, false, false, 0, [])

  /** The surroundings of one pass: the wire, the panel gate, the settings and what the menu stage picks. */
  datatype Pass = Pass(
    accepts: nat,
    panelWaits: bool,
    picksUnasked: bool,
    picks: bool,
    opensIntent: bool,
    walk: Walk)

  // ----- Text -----

  predicate StartsWithFold(hay: string, needle: string) {
    |needle| <= |hay| && forall i | 0 <= i < |needle| :: Lower(hay[i]) == Lower(needle[i])
  }

  predicate ContainsFold(hay: string, needle: string) {
    exists i | 0 <= i <= |hay| :: StartsWithFold(hay[i..], needle)
  }

  function Signature(title: string, entries: seq<string>): string {
    if entries == [] then title
    else Signature(title, entries[..|entries| - 1]) + "\n" + entries[|entries| - 1]
  }

  function MenuSignature(menu: RemoteMenu): string {
    Signature(menu.title, menu.entries)
  }

  // ----- Sending -----

  function BeginPass(n: Navigator, pass: Pass): Navigator {
    n.(sendRefused := false, willAccept := pass.accepts)
  }

  function Delivered(n: Navigator, sent: Happening): Navigator
    requires sent.Sent?
  {
    n.(willAccept := if n.willAccept > 0 then n.willAccept - 1 else 0,
       menuRequestedMs := if AsksGsxForAMenu(sent.verb) then Some(sent.at) else n.menuRequestedMs,
       log := n.log + [sent])
  }

  predicate CanSend(n: Navigator) {
    !n.sendRefused && n.willAccept > 0
  }

  /** A send either leaves the client, or is refused and blocks the rest of the pass. */
  function Send(n: Navigator, sent: Happening): Navigator
    requires sent.Sent?
  {
    if CanSend(n) then Delivered(n, sent) else n.(sendRefused := true)
  }

  /** A command that is no request: a menu command or a snapshot request. */
  function Command(verb: Verb, now: int, remote: Remote): (sent: Happening)
    ensures sent.Sent?
  {
    Sent(now, verb, "", false, remote.menu.shown)
  }

  function Delivery(r: Request, now: int, remote: Remote): (sent: Happening)
    ensures sent.Sent?
  {
    Sent(now, r.verb, r.name, r.UndoneByASecondSend(), remote.menu.shown)
  }

  predicate IsMenuSettled(n: Navigator, now: int) {
    !n.resyncPending && now - n.lastActionMs >= MENU_SETTLE_MS
  }

  // ----- Intents -----

  predicate HasActiveIntent(n: Navigator, now: int) {
    n.intent != NoIntent && now - n.intentSinceMs < INTENT_TTL_MS
  }

  function OpenIntent(n: Navigator, intent: Intent, now: int): Navigator {
    n.(reposition := if intent != RepositionIntent then Idle else n.reposition, intent := intent, intentSinceMs := now)
  }

  predicate RepositionWalking(n: Navigator) {
    n.reposition == Opening || n.reposition == PickingRoot || n.reposition == AwaitingSubmenu
  }

  // ----- Whose menu is on screen -----

  predicate AnswersAClientRequest(n: Navigator, now: int) {
    n.menuRequestedMs.Some? && now - n.menuRequestedMs.value < MENU_OWNERSHIP_WINDOW_MS
  }

  function TrackMenuOwner(n: Navigator, remote: Remote, now: int): Navigator {
    if !remote.menu.shown then
      if n.menuOwner == Nobody then n
      else n.(menuRequestedMs := if n.menuOwner == Client then Some(now) else n.menuRequestedMs,
              menuOwner := Nobody,
              log := n.log + [Hidden(now, n.menuOwner)])
    else if n.menuOwner == Nobody then
      var owner := if AnswersAClientRequest(n, now) then Client else Pilot;
      n.(menuOwner := owner, log := n.log + [FirstSeen(now, owner)])
    else n
  }

  // ----- Closing and resyncing a menu that does not move -----

  const SELECT_POSITION_TEXT := "Select Position at"
  const PUSHBACK_DIRECTION_TEXT := "pushback direction"

  predicate IsRepositionLeftover(n: Navigator, remote: Remote, now: int) {
    n.menuOwner == Client && !RepositionWalking(n) && HasActiveIntent(n, now)
    && ContainsFold(remote.menu.title, SELECT_POSITION_TEXT)
  }

  function CloseStaleMenu(n: Navigator, remote: Remote, now: int): Navigator {
    var watched := n.(watchedSinceMs := now);
    var closed := Send(watched, Command(MenuClose, now, remote));
    if CanSend(n) then closed.(lastActionMs := now) else closed
  }

  /** The first toggle that was sent and that GSX has not answered, while the client's own menu is up. */
  function FirstToggleAwaiting(pending: seq<Request>, now: int): Option<Request> {
    if pending == [] then None
    else if pending[0].IsAToggleAwaitingGsx(now) then Some(pending[0])
    else FirstToggleAwaiting(pending[1..], now)
  }

  predicate HoldsForAnUntakenToggle(n: Navigator, now: int) {
    n.menuOwner == Client && FirstToggleAwaiting(n.pending, now).Some?
  }

  predicate AnyHeldBehindAToggle(pending: seq<Request>) {
    exists i | 0 <= i < |pending| :: pending[i].heldBehindAToggle
  }

  function DiscardStuckMenu(n: Navigator, remote: Remote, now: int, sig: string): Navigator {
    if sig == n.discardedSig then n
    else if ContainsFold(remote.menu.title, PUSHBACK_DIRECTION_TEXT) then n.(discardedSig := sig)
    else if !HasActiveIntent(n, now) || n.menuOwner != Client then n
    else if AnyHeldBehindAToggle(n.pending) && HoldsForAnUntakenToggle(n, now) then n
    else
      var closed := Send(n.(watchedSinceMs := now), Command(MenuClose, now, remote));
      if CanSend(n) then closed.(discardedSig := sig, lastActionMs := now) else closed
  }

  function AskForASnapshot(n: Navigator, remote: Remote, now: int): Navigator {
    var asked := Send(n.(watchedSinceMs := now), Command(StateGet, now, remote));
    if CanSend(n) then asked.(resyncCount := n.resyncCount + 1, resyncPending := true, lastActionMs := now) else asked
  }

  function MaybeResyncStalledMenu(n: Navigator, remote: Remote, now: int, pass: Pass): Navigator {
    var sig := MenuSignature(remote.menu);
    if n.watchedSig != Some(sig) then n.(watchedSig := Some(sig), watchedSinceMs := now, resyncCount := 0)
    else if now - n.watchedSinceMs < RESYNC_DELAY_MS then n
    else if IsRepositionLeftover(n, remote, now) then CloseStaleMenu(n, remote, now)
    else if !pass.picksUnasked && !HasActiveIntent(n, now) then n
    else if n.resyncCount >= MAX_RESYNCS then DiscardStuckMenu(n, remote, now, sig)
    else AskForASnapshot(n, remote, now)
  }

  /** Picking an entry of the shown menu; which entry, and whether one matches, is the pass's to say. */
  function PickEntry(n: Navigator, remote: Remote, now: int): Navigator {
    if n.requestsHeld then n
    else
      var picked := Send(n, Command(MenuPick, now, remote));
      if CanSend(n) then picked.(lastActionMs := now) else picked
  }

  function PickStage(n: Navigator, remote: Remote, now: int, pass: Pass): Navigator {
    var picked := if pass.picks then PickEntry(n, remote, now) else n;
    var walked := picked.(reposition := pass.walk);
    if pass.opensIntent then OpenIntent(walked, ServiceIntent, now) else walked
  }

  function HandleMenu(n: Navigator, remote: Remote, now: int, pass: Pass): Navigator {
    var tracked := TrackMenuOwner(n, remote, now);
    if !remote.menu.shown then tracked.(watchedSig := None)
    else PickStage(MaybeResyncStalledMenu(tracked, remote, now, pass), remote, now, pass)
  }

  // ----- The queue -----

  /** GSX took what was sent, as far as its services tell; a request without a confirmation counts as taken. */
  predicate IsTakenByGsx(confirmId: string, remote: Remote) {
    confirmId == "" ||
    match FindService(remote.services, confirmId)
    case None => false
    case Some(service) => service.stateRaw != STATUS_CALLABLE || !service.canTrigger
  }

  predicate WasTaken(r: Request, remote: Remote) {
    r.WasSent() && IsTakenByGsx(r.confirmId, remote)
  }

  predicate IsServiceUnderway(remote: Remote, serviceId: string) {
    match FindService(remote.services, serviceId)
    case None => false
    case Some(service) => service.stateRaw == STATUS_REQUESTED || service.stateRaw == STATUS_ACTIVE
  }

  predicate IsAlreadyUnderway(r: Request, remote: Remote) {
    !r.firesWhileUnderway && !r.WasSent() && r.confirmId != "" && IsServiceUnderway(remote, r.confirmId)
  }

  function DropReasonFor(r: Request, remote: Remote, now: int): DropReason {
    if WasTaken(r, remote) then Taken
    else if IsAlreadyUnderway(r, remote) then AlreadyUnderway
    else if r.WasSent() && r.UndoneByASecondSend() && r.GiveUpWindowElapsed(now) then ToggleGaveUp
    else if r.attempts >= MAX_TRIGGER_ATTEMPTS && r.RetryWindowElapsed(now) then NeverTaken
    else if r.LeftUnsentForTooLong(now) then NeverLeft
    else Keep
  }

  /** Why each request would be dropped now. */
  function ReasonsAt(remote: Remote, now: int): Request -> DropReason {
    r => DropReasonFor(r, remote, now)
  }

  function Kept(pending: seq<Request>, reason: Request -> DropReason): seq<Request> {
    if pending == [] then []
    else (if reason(pending[0]) == Keep then [pending[0]] else []) + Kept(pending[1..], reason)
  }

  function Drops(pending: seq<Request>, now: int, reason: Request -> DropReason): seq<Happening> {
    if pending == [] then []
    else (if reason(pending[0]) == Keep then [] else [Dropped(now, pending[0].GetKey(), reason(pending[0]))])
         + Drops(pending[1..], now, reason)
  }

  /** What the first request leaves in the queue and in the record. */
  lemma FirstIsSettled(pending: seq<Request>, now: int, reason: Request -> DropReason)
    requires pending != []
    ensures reason(pending[0]) == Keep ==>
            Kept(pending, reason) == [pending[0]] + Kept(pending[1..], reason) && Drops(pending, now, reason) == Drops(pending[1..], now, reason)
    ensures reason(pending[0]) != Keep ==>
            && Kept(pending, reason) == Kept(pending[1..], reason)
            && Drops(pending, now, reason) == [Dropped(now, pending[0].GetKey(), reason(pending[0]))] + Drops(pending[1..], now, reason)
  {
  }

  lemma Regroup<T>(a: seq<T>, b: seq<T>, c: seq<T>)
    ensures a + (b + c) == a + b + c
  {
  }

  function DropTheSettled(n: Navigator, remote: Remote, now: int): Navigator {
    n.(pending := Kept(n.pending, ReasonsAt(remote, now)), log := n.log + Drops(n.pending, now, ReasonsAt(remote, now)))
  }

  function Rearmed(r: Request, now: int): Request {
    if r.WasSent() then r else r.(armedMs := now)
  }

  function AllRearmed(pending: seq<Request>, now: int): seq<Request> {
    seq(|pending|, i requires 0 <= i < |pending| => Rearmed(pending[i], now))
  }

  function RestartTheUnsentClocks(n: Navigator, now: int): Navigator {
    if n.menuOwner != Pilot then n else n.(pending := AllRearmed(n.pending, now))
  }

  /** GSX showed a message after a toggle went out and did not take it: it is to be asked again. */
  predicate WasRefused(r: Request, remote: Remote, now: int) {
    && r.WasSent() && r.UndoneByASecondSend() && !r.refused && r.attempts < MAX_TRIGGER_ATTEMPTS
    && r.messagesAtSend >= 0 && remote.messagesShown > r.messagesAtSend
    && now - r.lastSentMs >= REFUSAL_SETTLE_MS
    && FindService(remote.services, r.confirmId).Some?
  }

  function Marked(r: Request, remote: Remote, now: int): Request {
    if WasRefused(r, remote, now) then r.(refused := true) else r
  }

  function AllMarked(pending: seq<Request>, remote: Remote, now: int): seq<Request> {
    seq(|pending|, i requires 0 <= i < |pending| => Marked(pending[i], remote, now))
  }

  function MarkTheRefusedToggles(n: Navigator, remote: Remote, now: int): Navigator {
    n.(pending := AllMarked(n.pending, remote, now))
  }

  /** The index of the first request that is due, the length of the queue when none is. */
  function FirstDue(pending: seq<Request>, now: int): (i: nat)
    ensures i <= |pending|
    ensures i < |pending| ==> pending[i].IsDueToSend(now)
    ensures forall j | 0 <= j < i :: !pending[j].IsDueToSend(now)
  {
    if pending == [] || pending[0].IsDueToSend(now) then 0 else 1 + FirstDue(pending[1..], now)
  }

  function Stamped(r: Request, now: int, remote: Remote): Request {
    r.(lastSentMs := now, messagesAtSend := remote.messagesShown, refused := false,
       heldBehindThePilotsMenu := false, attempts := r.attempts + 1)
  }

  function Deliver(n: Navigator, remote: Remote, now: int, i: nat): Navigator
    requires i < |n.pending|
  {
    var r := n.pending[i];
    var sent := Send(n, Delivery(r, now, remote));
    if !CanSend(n) then sent
    else
      var stamped := sent.(lastActionMs := now, pending := n.pending[i := Stamped(r, now, remote)]);
      if r.attempts == 0 && r.verb == ServiceTrigger && !RepositionWalking(n)
      then OpenIntent(stamped, ServiceIntent, now)
      else stamped
  }

  function SendRequest(n: Navigator, remote: Remote, now: int, i: nat): Navigator
    requires i < |n.pending|
  {
    if !remote.menu.shown then Deliver(n, remote, now, i)
    else if n.menuOwner == Pilot then n.(pending := n.pending[i := n.pending[i].(heldBehindThePilotsMenu := true)])
    else
      var closed := Send(n, Command(MenuClose, now, remote));
      if !CanSend(n) then closed else Deliver(closed.(watchedSig := None), remote, now, i)
  }

  function ServeTheQueue(n: Navigator, remote: Remote, now: int): Navigator {
    var i := FirstDue(n.pending, now);
    if i == |n.pending| then n
    else if HoldsForAnUntakenToggle(n, now) then n.(pending := n.pending[i := n.pending[i].(heldBehindAToggle := true)])
    else SendRequest(n, remote, now, i)
  }

  /** What every pump begins with: whose menu is up, which requests are done with, which were refused. */
  function TidyTheQueue(n: Navigator, remote: Remote, now: int): Navigator {
    var restarted := RestartTheUnsentClocks(TrackMenuOwner(n, remote, now), now);
    MarkTheRefusedToggles(DropTheSettled(restarted, remote, now), remote, now)
  }

  function PumpRequests(n: Navigator, remote: Remote, now: int, pass: Pass): Navigator {
    var tidied := TidyTheQueue(n, remote, now);
    if tidied.requestsHeld || pass.panelWaits || !IsMenuSettled(tidied, now) then tidied
    else ServeTheQueue(tidied, remote, now)
  }

  /** The index of the first queued request with the key, the length of the queue when there is none. */
  function IndexOf(pending: seq<Request>, key: Key): (i: nat)
    ensures i <= |pending|
    ensures i < |pending| ==> pending[i].GetKey() == key
    ensures forall j | 0 <= j < i :: pending[j].GetKey() != key
  {
    if pending == [] || pending[0].GetKey() == key then 0 else 1 + IndexOf(pending[1..], key)
  }

  /** Arming a request again replaces the queued one but keeps what is known of its last send. */
  function Requeued(pending: seq<Request>, request: Request): seq<Request> {
    var i := IndexOf(pending, request.GetKey());
    if i == |pending| then pending + [request]
    else
      var same := pending[i];
      pending[..i] + pending[i + 1..]
      + [request.(lastSentMs := same.lastSentMs, attempts := same.attempts, refused := same.refused,
                  messagesAtSend := same.messagesAtSend)]
  }

  function ArmRequest(n: Navigator, remote: Remote, now: int, pass: Pass, request: Request): Navigator {
    var begun := BeginPass(n, pass);
    PumpRequests(begun.(pending := Requeued(n.pending, request)), remote, now, pass)
  }

  // ----- The operations -----

  function TriggerService(n: Navigator, remote: Remote, now: int, pass: Pass, serviceId: string, firesWhileUnderway: bool): Navigator {
    ArmRequest(OpenIntent(n, ServiceIntent, now), remote, now, pass,
               NewRequest(ServiceTrigger, Obj(map["service" := Str(serviceId)]), serviceId, serviceId, now, firesWhileUnderway))
  }

  /** The departure clearance shares its label with the pushback but waits for no confirmation. */
  function RequestDepartureClearance(n: Navigator, remote: Remote, now: int, pass: Pass): Navigator {
    ArmRequest(OpenIntent(n, ServiceIntent, now), remote, now, pass,
               NewRequest(ServiceTrigger, Obj(map["service" := Str("Departure")]), "Departure", "", now, false))
  }

  function RequestSimbriefLoad(n: Navigator, remote: Remote, now: int, pass: Pass): Navigator {
    ArmRequest(n, remote, now, pass,
               NewRequest(CommandRun, Obj(map["command" := Str("RELOAD_SIMBRIEF")]), "RELOAD_SIMBRIEF", "", now, false))
  }

  /** Opening the menu inside a pass. */
  function ToggleMenu(n: Navigator, remote: Remote, now: int): Navigator {
    if n.requestsHeld || remote.menu.shown then n
    else
      var sent := Send(n, Command(MenuToggle, now, remote));
      if CanSend(n) then sent.(lastActionMs := now) else sent
  }

  function RepositionAircraft(n: Navigator, remote: Remote, now: int, pass: Pass): Navigator {
    if n.reposition != Idle then n
    else
      var walking := OpenIntent(n, RepositionIntent, now).(reposition := Opening);
      if n.requestsHeld then walking else ToggleMenu(BeginPass(walking, pass), remote, now)
  }

  /** Completing the refueling or the boarding by hand starts by opening the menu. */
  function CompleteService(n: Navigator, remote: Remote, now: int, pass: Pass): Navigator {
    var intended := OpenIntent(n, ServiceIntent, now);
    if n.requestsHeld then intended else ToggleMenu(BeginPass(intended, pass), remote, now)
  }

  /** Confirming the engines or completing the pushback: pick the entry now, or open the menu for it. */
  function PickNowOrArm(n: Navigator, remote: Remote, now: int, pass: Pass): Navigator {
    var begun := BeginPass(n, pass);
    var wanted := remote.menu.shown && pass.picks && !n.requestsHeld;
    var picked := if wanted then PickEntry(begun, remote, now) else begun;
    if picked.sendRefused || (wanted && CanSend(begun)) then picked
    else ToggleMenu(OpenIntent(picked, ServiceIntent, now), remote, now)
  }

  function DisableGsxMenu(n: Navigator, remote: Remote, now: int, pass: Pass): Navigator {
    var tracked := TrackMenuOwner(BeginPass(n, pass), remote, now);
    if tracked.menuOwner == Pilot then tracked.(reposition := Idle, intent := NoIntent)
    else
      var closed := Send(tracked, Command(MenuClose, now, remote));
      if CanSend(tracked) then closed.(reposition := Idle, intent := NoIntent) else closed
  }

  function OnMenuChanged(n: Navigator, remote: Remote, now: int, pass: Pass): Navigator {
    PumpRequests(HandleMenu(BeginPass(n, pass), remote, now, pass), remote, now, pass)
  }

  function OnSnapshot(n: Navigator, remote: Remote, now: int, pass: Pass): Navigator {
    OnMenuChanged(n.(resyncPending := false), remote, now, pass)
  }

  function Cleared(n: Navigator): Navigator {
    START.(watchedSinceMs := n.watchedSinceMs, requestsHeld := n.requestsHeld, sendRefused := n.sendRefused,
           willAccept := n.willAccept, log := n.log)
  }

  function Reset(n: Navigator, now: int): Navigator {
    Cleared(n).(log := n.log + [Forgotten(now)])
  }

  // ----- Saving and restoring the queue -----

  function RequestToJson(r: Request): Json {
    Obj(map[
      "verb" := Str(VerbText(r.verb)),
      "args" := r.args,
      "label" := Str(r.name),
      "confirmId" := Str(r.confirmId),
      "lastSentMs" := Num(r.lastSentMs as real),
      "armedMs" := Num(r.armedMs as real),
      "attempts" := Num(r.attempts as real),
      "firesWhileUnderway" := Bool(r.firesWhileUnderway)
    ])
  }

  function Clamp(n: int, low: int, high: int): int
    requires low <= high
  {
    if n < low then low else if n > high then high else n
  }

  function RequestFromJson(json: Json, now: int): Option<Request> {
    var verb := TextOf(Member(json, "verb"));
    if verb != VerbText(ServiceTrigger) && verb != VerbText(CommandRun) then None
    else
      var newest := if now > 0 then now else 0;
      Some(Request(
        if verb == VerbText(ServiceTrigger) then ServiceTrigger else CommandRun,
        Obj(MembersOf(Member(json, "args"))),
        TextOf(Member(json, "label")),
        TextOf(Member(json, "confirmId")),
        Clamp(IntegerOf(Member(json, "lastSentMs")), 0, newest),
        Clamp(IntegerOf(Member(json, "armedMs")), 0, newest),
        Clamp(IntOf(Member(json, "attempts")), 0, MAX_TRIGGER_ATTEMPTS),
        FlagOf(Member(json, "firesWhileUnderway")),
        false, false, false, -1))
  }

  function QueueToJson(pending: seq<Request>): seq<Json> {
    seq(|pending|, i requires 0 <= i < |pending| => RequestToJson(pending[i]))
  }

  function TakeMemory(n: Navigator): Json {
    Arr(QueueToJson(n.pending))
  }

  function Reader(now: int): Json -> Option<Request> {
    json => RequestFromJson(json, now)
  }

  /** The queue read from a saved one: entries that cannot be read, and repeated entries, are left out. */
  function PendingFrom(items: seq<Json>, read: Json -> Option<Request>): seq<Request> {
    if items == [] then []
    else
      var queue := PendingFrom(items[..|items| - 1], read);
      match read(items[|items| - 1])
      case None => queue
      case Some(request) => if IndexOf(queue, request.GetKey()) < |queue| then queue else queue + [request]
  }

  /** The queued requests that were sent, and how often. */
  function SentCounts(pending: seq<Request>): map<Key, nat> {
    if pending == [] then map[]
    else
      var before, last := SentCounts(pending[..|pending| - 1]), pending[|pending| - 1];
      if last.WasSent() then before[last.GetKey() := last.attempts] else before
  }

  function RestoreMemory(n: Navigator, memory: Json, now: int): Navigator {
    var queue := PendingFrom(ItemsOf(memory), Reader(now));
    var restored := Cleared(n).(
      pending := AllRearmed(queue, now),
      log := n.log + [Restored(now, SentCounts(queue))]);
    if queue == [] then restored else OpenIntent(restored, ServiceIntent, now)
  }
}
