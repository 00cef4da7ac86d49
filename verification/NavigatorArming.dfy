/** What becomes of a request that is armed: when it is dropped at once, without ever being sent for itself. */
module NavigatorArming {
  import opened Json
  import opened GsxRemote
  import opened NavigatorModel
  import opened NavigatorHistory
  import opened NavigatorRuns
  import opened NavigatorProperties

  // ----- The key of a request through a pump -----

  lemma {:induction false} KeptKeys(pending: seq<Request>, reason: Request -> DropReason, key: Key)
    ensures key in Keys(Kept(pending, reason)) <==>
            exists i :: 0 <= i < |pending| && pending[i].GetKey() == key && reason(pending[i]) == Keep
  {
    var kept := Kept(pending, reason);
    if pending != [] {
      var first, rest := pending[0], pending[1..];
      KeptKeys(rest, reason, key);
      FirstIsSettled(pending, 0, reason);
      if key in Keys(Kept(rest, reason)) {
        var k :| 0 <= k < |Kept(rest, reason)| && Kept(rest, reason)[k].GetKey() == key;
        assert kept[if reason(first) == Keep then k + 1 else k].GetKey() == key;
        var i :| 0 <= i < |rest| && rest[i].GetKey() == key && reason(rest[i]) == Keep;
        assert pending[i + 1] == rest[i];
      }
      if reason(first) == Keep && first.GetKey() == key {
        assert kept[0].GetKey() == key;
      }
      if key in Keys(kept) && key !in Keys(Kept(rest, reason)) {
        var k :| 0 <= k < |kept| && kept[k].GetKey() == key;
        assert k == 0 && reason(first) == Keep;
      }
      if i :| 0 <= i < |pending| && pending[i].GetKey() == key && reason(pending[i]) == Keep {
        assert i > 0 ==> rest[i - 1] == pending[i];
      }
    }
  }

  lemma SameKeys(before: seq<Request>, after: seq<Request>)
    requires |after| == |before| && forall i | 0 <= i < |before| :: after[i].GetKey() == before[i].GetKey()
    ensures Keys(after) == Keys(before)
  {
    forall key ensures key in Keys(after) <==> key in Keys(before) {
      if key in Keys(before) {
        var i :| 0 <= i < |before| && before[i].GetKey() == key;
        assert after[i].GetKey() == key;
      }
    }
  }

  /** Only one queued request has the key, so it is left in the queue exactly when it has no reason to go. */
  lemma KeptWithItsKey(pending: seq<Request>, reason: Request -> DropReason, at: nat)
    requires HasNoTwins(pending) && at < |pending|
    ensures pending[at].GetKey() in Keys(Kept(pending, reason)) <==> reason(pending[at]) == Keep
  {
    KeptKeys(pending, reason, pending[at].GetKey());
    assert forall i | 0 <= i < |pending| && i != at :: pending[i].GetKey() != pending[at].GetKey();
  }

  // ----- What a pump puts on record -----

  /** The record goes on from where it was without a send of the request. */
  predicate NoSendOf(key: Key, before: seq<Happening>, after: seq<Happening>) {
    before <= after && forall j | |before| <= j < |after| :: !IsSendOf(after[j], key)
  }

  lemma {:induction false} DropsAreNoSends(pending: seq<Request>, now: int, reason: Request -> DropReason)
    ensures forall e | e in Drops(pending, now, reason) :: e.Dropped?
  {
    if pending != [] {
      DropsAreNoSends(pending[1..], now, reason);
      FirstIsSettled(pending, now, reason);
    }
  }

  lemma TidyingSendsNothing(n: Navigator, remote: Remote, now: int, key: Key)
    ensures NoSendOf(key, n.log, TidyTheQueue(n, remote, now).log)
  {
    var restarted := RestartTheUnsentClocks(TrackMenuOwner(n, remote, now), now);
    DropsAreNoSends(restarted.pending, now, ReasonsAt(remote, now));
    assert NoSendOf(key, n.log, restarted.log);
    var drops := Drops(restarted.pending, now, ReasonsAt(remote, now));
    assert forall j | |restarted.log| <= j < |restarted.log + drops| :: (restarted.log + drops)[j] in drops;
  }

  lemma ServingSendsOnlyTheQueued(n: Navigator, remote: Remote, now: int, key: Key)
    requires key !in Keys(n.pending)
    ensures NoSendOf(key, n.log, ServeTheQueue(n, remote, now).log)
  {
    TheFirstDueIsServed(n, remote, now);
    var i := FirstDue(n.pending, now);
    if i < |n.pending| {
      assert n.pending[i].GetKey() in Keys(n.pending);
    }
  }

  lemma ServingKeepsTheKeys(n: Navigator, remote: Remote, now: int)
    ensures Keys(ServeTheQueue(n, remote, now).pending) == Keys(n.pending)
  {
    TheFirstDueIsServed(n, remote, now);
    var i, after := FirstDue(n.pending, now), ServeTheQueue(n, remote, now);
    if i < |n.pending| {
      assert Unmarked(after.pending[i]).GetKey() == after.pending[i].GetKey();
      assert Unmarked(Stamped(n.pending[i], now, remote)).GetKey() == n.pending[i].GetKey() == Unmarked(n.pending[i]).GetKey();
      SameKeys(n.pending, after.pending);
    }
  }

  lemma PumpKeepsAndSends(n: Navigator, remote: Remote, now: int, pass: Pass, key: Key)
    ensures Keys(PumpRequests(n, remote, now, pass).pending) == Keys(TidyTheQueue(n, remote, now).pending)
    ensures key !in Keys(TidyTheQueue(n, remote, now).pending) ==> NoSendOf(key, n.log, PumpRequests(n, remote, now, pass).log)
  {
    var tidied := TidyTheQueue(n, remote, now);
    ServingKeepsTheKeys(tidied, remote, now);
    TidyingSendsNothing(n, remote, now, key);
    if key !in Keys(tidied.pending) {
      ServingSendsOnlyTheQueued(tidied, remote, now, key);
    }
  }

  // ----- Arming -----

  /** The request as it stands in the queue once armed, with what is known of the last send under its key. */
  lemma ArmedRequestIsLast(pending: seq<Request>, request: Request)
    requires HasNoTwins(pending)
    ensures var after := Requeued(pending, request);
            && after != [] && HasNoTwins(after)
            && Unmarked(after[|after| - 1]).(lastSentMs := 0, attempts := 0, refused := false, messagesAtSend := -1)
               == Unmarked(request).(lastSentMs := 0, attempts := 0, refused := false, messagesAtSend := -1)
            && (after[|after| - 1].attempts, after[|after| - 1].lastSentMs)
               == var i := IndexOf(pending, request.GetKey());
                  if i < |pending| then (pending[i].attempts, pending[i].lastSentMs) else (request.attempts, request.lastSentMs)
  {
    var i, after := IndexOf(pending, request.GetKey()), Requeued(pending, request);
    if i < |pending| {
      MovedToTheEnd(pending, after, i);
    }
  }

  /** How long ago the queued request with the key was sent. */
  function SinceItsSend(pending: seq<Request>, key: Key, now: int): int {
    var i := IndexOf(pending, key);
    if i < |pending| then now - pending[i].lastSentMs else now
  }

  /**
    What makes an armed request go at once, by what is on record of its key: when sends of it are still open, those sends
    count as its own; otherwise only that the service is under way already.
  */
  predicate GoesAtOnce(request: Request, sends: nat, sinceTheLast: int, remote: Remote) {
    if sends > 0 then
      || IsTakenByGsx(request.confirmId, remote)
      || (request.UndoneByASecondSend() && sinceTheLast >= 90000)
      || (sends == MAX_TRIGGER_ATTEMPTS && sinceTheLast >= 20000)
    else
      !request.firesWhileUnderway && request.confirmId != "" && IsServiceUnderway(remote, request.confirmId)
  }

  lemma RestartingKeepsTheKeys(n: Navigator, now: int, at: nat)
    requires HasNoTwins(n.pending) && at < |n.pending| && n.pending[at].armedMs == now
    ensures var restarted := RestartTheUnsentClocks(n, now).pending;
            |restarted| == |n.pending| && restarted[at] == n.pending[at] && HasNoTwins(restarted)
  {
    assert forall i | 0 <= i < |n.pending| :: AllRearmed(n.pending, now)[i].GetKey() == n.pending[i].GetKey();
  }

  lemma SettledKeys(pending: seq<Request>, remote: Remote, now: int, at: nat)
    requires HasNoTwins(pending) && at < |pending|
    ensures pending[at].GetKey() in Keys(AllMarked(Kept(pending, ReasonsAt(remote, now)), remote, now))
            <==> DropReasonFor(pending[at], remote, now) == Keep
  {
    var kept := Kept(pending, ReasonsAt(remote, now));
    KeptWithItsKey(pending, ReasonsAt(remote, now), at);
    SameKeys(kept, AllMarked(kept, remote, now));
  }

  lemma TidiedKeys(n: Navigator, remote: Remote, now: int, at: nat)
    requires HasNoTwins(n.pending) && at < |n.pending| && n.pending[at].armedMs == now
    ensures n.pending[at].GetKey() in Keys(TidyTheQueue(n, remote, now).pending) <==> DropReasonFor(n.pending[at], remote, now) == Keep
  {
    RestartingKeepsTheKeys(TrackMenuOwner(n, remote, now), now, at);
    SettledKeys(RestartTheUnsentClocks(TrackMenuOwner(n, remote, now), now).pending, remote, now, at);
  }

  lemma ReasonToGo(r: Request, request: Request, remote: Remote, now: int)
    requires r.armedMs == now && 0 <= r.attempts <= MAX_TRIGGER_ATTEMPTS
    requires (r.confirmId, r.firesWhileUnderway) == (request.confirmId, request.firesWhileUnderway)
    ensures DropReasonFor(r, remote, now) != Keep <==> GoesAtOnce(request, r.attempts, now - r.lastSentMs, remote)
  {
  }

  /** The navigator that a request is armed on: most requests open an intent first. */
  function Intending(n: Navigator, intends: bool, at: int): Navigator {
    if intends then OpenIntent(n, ServiceIntent, at) else n
  }

  /**
    In every run an armed request is dropped in the same moment, and not sent again, exactly when it goes at once by the
    sends that are on record of its verb and label: they count as its own, whatever they were sent for.
  */
  lemma ArmedRequestIsDroppedUnsent(steps: seq<Timed>, intends: bool, request: Request, at: int, pass: Pass)
    requires IsOrdered(steps) && EndOf(steps) <= at && IsNew(request, at)
    ensures var s, key := Run(steps), request.GetKey();
            var after := ArmRequest(Intending(s.nav, intends, at), s.remote, at, pass, request);
            && (key !in Keys(after.pending)
                <==> GoesAtOnce(request, SendsOf(s.nav.log, key), SinceItsSend(s.nav.pending, key, at), s.remote))
            && (key !in Keys(after.pending) ==> NoSendOf(key, s.nav.log, after.log))
  {
    var s, key := Run(steps), request.GetKey();
    var requeued := Requeued(s.nav.pending, request);
    var begun := BeginPass(Intending(s.nav, intends, at), pass).(pending := requeued);
    ArmedRequestStands(steps, request, at);
    TidiedKeys(begun, s.remote, at, |requeued| - 1);
    ReasonToGo(requeued[|requeued| - 1], request, s.remote, at);
    PumpKeepsAndSends(begun, s.remote, at, pass, key);
  }

  /** In every run the armed request stands last in the queue and counts the sends that are on record of its key. */
  lemma ArmedRequestStands(steps: seq<Timed>, request: Request, at: int)
    requires IsOrdered(steps) && EndOf(steps) <= at && IsNew(request, at)
    ensures var nav, key := Run(steps).nav, request.GetKey();
            var requeued := Requeued(nav.pending, request);
            && requeued != [] && HasNoTwins(requeued)
            && var last := requeued[|requeued| - 1];
               && last.GetKey() == key && last.armedMs == at
               && (last.confirmId, last.firesWhileUnderway) == (request.confirmId, request.firesWhileUnderway)
               && last.attempts == SendsOf(nav.log, key) <= MAX_TRIGGER_ATTEMPTS
               && at - last.lastSentMs == SinceItsSend(nav.pending, key, at)
  {
    SavedRequestsAreReadable(steps, at);
    ArmedRequestIsLast(Run(steps).nav.pending, request);
    KnownSends(steps, request);
  }

  lemma KnownSends(steps: seq<Timed>, request: Request)
    requires IsOrdered(steps) && request.attempts == 0 && request.lastSentMs == 0
    ensures var nav, i := Run(steps).nav, IndexOf(Run(steps).nav.pending, request.GetKey());
            if i < |nav.pending| then nav.pending[i].attempts == SendsOf(nav.log, request.GetKey()) <= MAX_TRIGGER_ATTEMPTS
            else SendsOf(nav.log, request.GetKey()) == 0
  {
    var nav, i := Run(steps).nav, IndexOf(Run(steps).nav.pending, request.GetKey());
    QueueRemembersEverySend(steps);
    QueueOfEveryRun(steps);
    if i < |nav.pending| {
      assert nav.pending[i] in nav.pending;
    } else {
      assert request.GetKey() !in Keys(nav.pending);
    }
  }

  const DEPARTURE := Key(ServiceTrigger, "Departure")

  /**
    The departure clearance shares its verb and label with the pushback and waits for no confirmation.  So in every run
    it is dropped as taken without ever leaving exactly when a pushback that was sent is still queued, and that
    pushback is forgotten with it.
  */
  lemma ClearanceIsLostBehindASentPushback(steps: seq<Timed>, at: int, pass: Pass)
    requires IsOrdered(steps) && EndOf(steps) <= at
    ensures var s := Run(steps);
            var after := RequestDepartureClearance(s.nav, s.remote, at, pass);
            && (DEPARTURE !in Keys(after.pending) <==> SendsOf(s.nav.log, DEPARTURE) > 0)
            && (DEPARTURE !in Keys(after.pending) ==> NoSendOf(DEPARTURE, s.nav.log, after.log))
  {
    var request := NewRequest(ServiceTrigger, Obj(map["service" := Str("Departure")]), "Departure", "", at, false);
    ArmedRequestIsDroppedUnsent(steps, true, request, at, pass);
  }

  /** A pushback is asked for and leaves. */
  const PUSHBACK_RUN: seq<Timed> := [Timed(2000, Asked(Trigger("Departure", false), QUIET))]

  lemma PushbackLeaves()
    ensures IsOrdered(PUSHBACK_RUN) && EndOf(PUSHBACK_RUN) == 2000
    ensures SendsOf(Run(PUSHBACK_RUN).nav.log, DEPARTURE) == 1
  {
    var request := NewRequest(ServiceTrigger, Obj(map["service" := Str("Departure")]), "Departure", "Departure", 2000, false);
    var begun := BeginPass(OpenIntent(START, ServiceIntent, 2000), QUIET).(pending := [request]);
    assert PUSHBACK_RUN[..0] == [];
    assert Run(PUSHBACK_RUN) == Take(BEGINNING, PUSHBACK_RUN[0]);
    assert Requeued([], request) == [request];
    assert Run(PUSHBACK_RUN).nav == PumpRequests(begun, FRESH, 2000, QUIET);
    TidyingKeepsTheFresh(begun, FRESH, 2000);
    var tidied := TidyTheQueue(begun, FRESH, 2000);
    assert tidied.pending == [request] && tidied.log == [];
    assert request in tidied.pending && IsWaiting(request, 2000);
    TheFirstDueIsServed(tidied, FRESH, 2000);
    assert NothingHoldsTheQueue(tidied, FRESH, 2000);
    var sent := Delivery(request, 2000, FRESH);
    assert Run(PUSHBACK_RUN).nav.log == [sent];
    assert [sent][..0] == [] && IsSendOf(sent, DEPARTURE);
  }

  lemma TidyingKeepsTheFresh(n: Navigator, remote: Remote, now: int)
    requires !remote.menu.shown && n.menuOwner == Nobody && |n.pending| == 1 && n.log == []
    requires DropReasonFor(n.pending[0], remote, now) == Keep && !n.pending[0].WasSent()
    ensures TidyTheQueue(n, remote, now) == n
  {
    FirstIsSettled(n.pending, now, ReasonsAt(remote, now));
    assert n.pending[1..] == [];
    assert Kept(n.pending, ReasonsAt(remote, now)) == n.pending;
    assert AllMarked(n.pending, remote, now) == n.pending;
  }

  /** So a clearance can be lost: asked for a second after the pushback left, it never does. */
  lemma ClearanceCanBeLost()
    ensures var s := Run(PUSHBACK_RUN);
            var after := RequestDepartureClearance(s.nav, s.remote, 3000, QUIET);
            DEPARTURE !in Keys(after.pending) && NoSendOf(DEPARTURE, s.nav.log, after.log)
  {
    PushbackLeaves();
    ClearanceIsLostBehindASentPushback(PUSHBACK_RUN, 3000, QUIET);
  }
}
