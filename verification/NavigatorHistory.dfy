/**
  What the record of a navigator's happenings has to look like, stated on the record alone: which sends
  are allowed, whose menu may be closed, and what a menu's owner is decided by.
*/
module NavigatorHistory {
  import opened Options
  import opened NavigatorModel

  /** A request whose last send is still open: when it left, how often it was sent, whether GSX showed a message since. */
  datatype OpenSend = OpenSend(at: int, sends: nat, answered: bool)

  datatype Summary = Summary(
    open: map<Key, OpenSend>,
    sentBeforeTheRestore: map<Key, nat>,
    asked: Option<int>,
    owner: MenuOwner,
    screen: bool,
    owed: bool,
    now: int)

  const NOTHING_YET := Summary(map[], map[], None, Nobody, false, false, 0)

  /** How often a request was sent that is still queued, the sends before a restart included. */
  function SendsIn(s: Summary, key: Key): nat {
    if key in s.open then s.open[key].sends
    else if key in s.sentBeforeTheRestore then s.sentBeforeTheRestore[key]
    else 0
  }

  /**
    The summary after one more happening.  A menu that GSX publishes is owed an answer: its owner is to be
    judged when it comes up, and given up when it goes away.
  */
  function After(s: Summary, e: Happening): Summary {
    var s := s.(now := e.at, owed := false);
    match e
    case Sent(at, verb, name, _, _) =>
      var key := Key(verb, name);
      var asked := s.(asked := if AsksGsxForAMenu(verb) then Some(at) else s.asked);
      if IsArmedVerb(verb)
      then asked.(open := s.open[key := OpenSend(at, SendsIn(s, key) + 1, false)], sentBeforeTheRestore := s.sentBeforeTheRestore - {key})
      else asked
    case Dropped(_, key, _) => s.(open := s.open - {key}, sentBeforeTheRestore := s.sentBeforeTheRestore - {key})
    case Forgotten(at) => NOTHING_YET.(now := at, screen := s.screen)
    case Restored(at, counts) => NOTHING_YET.(now := at, screen := s.screen, sentBeforeTheRestore := counts)
    case MessageShown(_) => s.(open := map key | key in s.open :: s.open[key].(answered := true))
    case MenuPublished(_, shown) => s.(screen := shown, owed := (s.owner != Nobody) != shown)
    case Reconnected(_) => s.(screen := false)
    case FirstSeen(_, owner) => s.(owner := owner)
    case Hidden(at, owner) => s.(owner := Nobody, asked := if owner == Client then Some(at) else s.asked)
  }

  function Summarize(log: seq<Happening>): Summary {
    if log == [] then NOTHING_YET else After(Summarize(log[..|log| - 1]), log[|log| - 1])
  }

  /** Only a request that was sent is dropped as taken or given up, and only after its time. */
  predicate IsJustified(s: Summary, at: int, key: Key, reason: DropReason) {
    match reason
    case Keep => false
    case Taken => SendsIn(s, key) > 0
    case AlreadyUnderway | NeverLeft => SendsIn(s, key) == 0
    case ToggleGaveUp => SendsIn(s, key) > 0 && (key in s.open ==> at - s.open[key].at >= TOGGLE_GIVE_UP_MS)
    case NeverTaken => SendsIn(s, key) == MAX_TRIGGER_ATTEMPTS && (key in s.open ==> at - s.open[key].at >= TRIGGER_RETRY_MS)
  }

  /**
    A request is sent while it has attempts left; again only when GSX answered the last send with a message and
    three seconds passed, or twenty seconds after it when a second send does not undo the first.
  */
  predicate MayBeSent(s: Summary, at: int, key: Key, toggle: bool) {
    && SendsIn(s, key) < MAX_TRIGGER_ATTEMPTS
    && (key in s.open ==>
          var last := s.open[key];
          (last.answered && at - last.at >= REFUSAL_SETTLE_MS) || (!toggle && at - last.at >= TRIGGER_RETRY_MS))
    && (toggle ==> key !in s.sentBeforeTheRestore)
  }

  /** Whether a happening is allowed after a history. */
  predicate IsAllowed(s: Summary, e: Happening) {
    && s.now <= e.at
    && (s.owed ==> (e.FirstSeen? || e.Hidden?) && e.at == s.now)
    && match e
       case Sent(at, verb, name, toggle, shown) =>
         && shown == s.screen
         && ((verb == MenuClose || IsArmedVerb(verb)) && shown ==> s.owner == Client)
         && (verb == MenuToggle ==> !shown)
         && (IsArmedVerb(verb) ==> MayBeSent(s, at, Key(verb, name), toggle))
       case Dropped(at, key, reason) => IsJustified(s, at, key, reason)
       case Restored(_, counts) => forall key | key in counts :: 1 <= counts[key] <= MAX_TRIGGER_ATTEMPTS
       case FirstSeen(at, owner) =>
         && s.screen && s.owner == Nobody && owner != Nobody
         && (owner == Client <==> s.asked.Some? && at - s.asked.value < MENU_OWNERSHIP_WINDOW_MS)
       case Hidden(_, owner) => !s.screen && owner == s.owner && owner != Nobody
       case _ => true
  }

  /** Every happening was allowed when it happened. */
  predicate IsLawful(log: seq<Happening>) {
    log == [] || (IsLawful(log[..|log| - 1]) && IsAllowed(Summarize(log[..|log| - 1]), log[|log| - 1]))
  }

  lemma OneMore(log: seq<Happening>, e: Happening)
    ensures Summarize(log + [e]) == After(Summarize(log), e)
    ensures IsLawful(log + [e]) <==> IsLawful(log) && IsAllowed(Summarize(log), e)
  {
    assert (log + [e])[..|log|] == log;
  }

  lemma {:induction false} AllowedAt(log: seq<Happening>, k: nat)
    requires IsLawful(log) && k < |log|
    ensures IsLawful(log[..k]) && IsAllowed(Summarize(log[..k]), log[k])
  {
    var n := |log| - 1;
    if k < n {
      AllowedAt(log[..n], k);
      assert log[..n][..k] == log[..k];
    }
  }

  /** The summary at a position is that of the position before with one more happening, and that was allowed. */
  lemma SummaryOf(log: seq<Happening>, k: nat)
    requires IsLawful(log) && 0 < k <= |log|
    ensures Summarize(log[..k]) == After(Summarize(log[..k - 1]), log[k - 1])
    ensures IsAllowed(Summarize(log[..k - 1]), log[k - 1])
  {
    AllowedAt(log, k - 1);
    assert log[..k][..k - 1] == log[..k - 1];
  }

  // ----- What the summary means -----

  predicate IsSendOf(e: Happening, key: Key) {
    e.Sent? && IsArmedVerb(e.verb) && Key(e.verb, e.name) == key
  }

  predicate Ends(e: Happening, key: Key) {
    e.Forgotten? || e.Restored? || (e.Dropped? && e.key == key)
  }

  /** The last send of a request, with nothing after it that ended the request. */
  predicate IsOpenSend(log: seq<Happening>, key: Key, i: nat) {
    && i < |log| && IsSendOf(log[i], key)
    && forall k | i < k < |log| :: !IsSendOf(log[k], key) && !Ends(log[k], key)
  }

  /** An open send in the summary is one in the record, answered when a message came after it. */
  lemma {:induction false} OpenSendIsInTheRecord(log: seq<Happening>, key: Key) returns (i: nat)
    requires key in Summarize(log).open
    ensures IsOpenSend(log, key, i) && log[i].at == Summarize(log).open[key].at
    ensures Summarize(log).open[key].answered ==> exists k :: i < k < |log| && log[k].MessageShown?
  {
    var n := |log| - 1;
    var before := log[..n];
    if IsSendOf(log[n], key) {
      i := n;
    } else {
      i := OpenSendIsInTheRecord(before, key);
      if Summarize(before).open[key].answered {
        var k :| i < k < n && before[k].MessageShown?;
        assert log[k].MessageShown?;
      }
    }
  }

  lemma OpenSendStaysOpen(s: Summary, e: Happening, key: Key)
    requires key in s.open && !IsSendOf(e, key) && !Ends(e, key)
    ensures key in After(s, e).open && After(s, e).open[key].at == s.open[key].at
  {
  }

  lemma {:induction false} RecordedSendIsOpen(log: seq<Happening>, key: Key, i: nat)
    requires IsOpenSend(log, key, i)
    ensures key in Summarize(log).open && Summarize(log).open[key].at == log[i].at
  {
    var n := |log| - 1;
    if i < n {
      var before := log[..n];
      assert before[i] == log[i];
      assert forall k | i < k < n :: before[k] == log[k];
      RecordedSendIsOpen(before, key, i);
      OpenSendStaysOpen(Summarize(before), log[n], key);
    }
  }

  /**
    A service that a second request undoes is sent again only after GSX showed a message since its last
    send, and no sooner than three seconds after it.
  */
  lemma ToggleIsNeverResentBlindly(log: seq<Happening>, key: Key, i: nat, j: nat)
    requires IsLawful(log) && i < j < |log|
    requires IsOpenSend(log[..j], key, i)
    requires IsSendOf(log[j], key) && log[j].toggle
    ensures log[j].at - log[i].at >= REFUSAL_SETTLE_MS
    ensures exists k :: i < k < j && log[k].MessageShown?
  {
    RecordedSendIsOpen(log[..j], key, i);
    AllowedAt(log, j);
    var s := OpenSendIsInTheRecord(log[..j], key);
    assert s == i;
    var k :| i < k < j && log[..j][k].MessageShown?;
    assert log[k].MessageShown?;
  }

  /** How often a request was sent since it was last ended; a restore brings the sends it saved. */
  function SendsOf(log: seq<Happening>, key: Key): nat {
    if log == [] then 0
    else
      var before, e := log[..|log| - 1], log[|log| - 1];
      if e.Restored? then if key in e.sentBefore then e.sentBefore[key] else 0
      else if Ends(e, key) then 0
      else SendsOf(before, key) + if IsSendOf(e, key) then 1 else 0
  }

  lemma {:induction false} SummaryCountsTheSends(log: seq<Happening>, key: Key)
    ensures SendsOf(log, key) == SendsIn(Summarize(log), key)
  {
    if log != [] {
      SummaryCountsTheSends(log[..|log| - 1], key);
    }
  }

  lemma SendsStayBounded(s: Summary, e: Happening, key: Key)
    requires IsAllowed(s, e) && SendsIn(s, key) <= MAX_TRIGGER_ATTEMPTS
    ensures SendsIn(After(s, e), key) <= MAX_TRIGGER_ATTEMPTS
  {
  }

  lemma {:induction false} LawfulSendsAreBounded(log: seq<Happening>, key: Key)
    requires IsLawful(log)
    ensures SendsIn(Summarize(log), key) <= MAX_TRIGGER_ATTEMPTS
  {
    if log != [] {
      var before, e := log[..|log| - 1], log[|log| - 1];
      assert log == before + [e];
      OneMore(before, e);
      LawfulSendsAreBounded(before, key);
      SendsStayBounded(Summarize(before), e, key);
    }
  }

  /** No request is sent more than three times before it is dropped or forgotten, a restart in between or not. */
  lemma NoRequestIsSentMoreThanThreeTimes(log: seq<Happening>, key: Key)
    requires IsLawful(log)
    ensures SendsOf(log, key) <= MAX_TRIGGER_ATTEMPTS
  {
    SummaryCountsTheSends(log, key);
    LawfulSendsAreBounded(log, key);
  }

  /**
    A request is dropped as taken or given up exactly when it was sent, as never taken only after the third send;
    it is given up no sooner than its time after its last send.
  */
  lemma DropsComeInTime(log: seq<Happening>, j: nat)
    requires IsLawful(log) && j < |log| && log[j].Dropped?
    ensures SendsOf(log[..j], log[j].key) > 0 <==> log[j].reason in {Taken, ToggleGaveUp, NeverTaken}
    ensures log[j].reason == NeverTaken ==> SendsOf(log[..j], log[j].key) == MAX_TRIGGER_ATTEMPTS
    ensures forall i: nat | IsOpenSend(log[..j], log[j].key, i) ::
              && (log[j].reason == ToggleGaveUp ==> log[j].at - log[i].at >= TOGGLE_GIVE_UP_MS)
              && (log[j].reason == NeverTaken ==> log[j].at - log[i].at >= TRIGGER_RETRY_MS)
  {
    AllowedAt(log, j);
    SummaryCountsTheSends(log[..j], log[j].key);
    forall i: nat | IsOpenSend(log[..j], log[j].key, i)
      ensures log[j].reason == ToggleGaveUp ==> log[j].at - log[i].at >= TOGGLE_GIVE_UP_MS
      ensures log[j].reason == NeverTaken ==> log[j].at - log[i].at >= TRIGGER_RETRY_MS
    {
      RecordedSendIsOpen(log[..j], log[j].key, i);
    }
  }

  /** A toggle sent before a restore is not sent again after it, until its request was dropped. */
  lemma {:induction false} RestoredToggleIsNotResent(log: seq<Happening>, key: Key, r: nat, j: nat)
    requires IsLawful(log) && r < j < |log|
    requires log[r].Restored? && key in log[r].sentBefore
    requires forall k | r < k < j :: !IsSendOf(log[k], key) && !Ends(log[k], key)
    ensures !(IsSendOf(log[j], key) && log[j].toggle)
  {
    StaysSentBefore(log[..j], key, r);
    AllowedAt(log, j);
  }

  lemma {:induction false} StaysSentBefore(log: seq<Happening>, key: Key, r: nat)
    requires r < |log| && log[r].Restored? && key in log[r].sentBefore
    requires forall k | r < k < |log| :: !IsSendOf(log[k], key) && !Ends(log[k], key)
    ensures key in Summarize(log).sentBeforeTheRestore
  {
    var n := |log| - 1;
    if r < n {
      assert forall k | r <= k < n :: log[..n][k] == log[k];
      StaysSentBefore(log[..n], key, r);
    }
  }

  // ----- Menus -----

  predicate ClearsTheAsking(e: Happening) {
    e.Forgotten? || e.Restored?
  }

  /** The client asked GSX for a menu, or a menu of its own just went away. */
  predicate Asks(e: Happening) {
    (e.Sent? && AsksGsxForAMenu(e.verb)) || (e.Hidden? && e.owner == Client)
  }

  predicate IsLastAsking(log: seq<Happening>, i: nat) {
    && i < |log| && Asks(log[i])
    && forall k | i < k < |log| :: !Asks(log[k]) && !ClearsTheAsking(log[k])
  }

  lemma {:induction false} AskedIsTheLastAsking(log: seq<Happening>) returns (i: nat)
    ensures Summarize(log).asked.Some? ==> IsLastAsking(log, i) && log[i].at == Summarize(log).asked.value
    ensures Summarize(log).asked.None? ==>
            forall k | 0 <= k < |log| && Asks(log[k]) :: exists m :: k < m < |log| && ClearsTheAsking(log[m])
  {
    i := 0;
    if log != [] {
      var n := |log| - 1;
      var before := log[..n];
      if Asks(log[n]) {
        i := n;
      } else if !ClearsTheAsking(log[n]) {
        i := AskedIsTheLastAsking(before);
        if Summarize(log).asked.None? {
          forall k | 0 <= k < |log| && Asks(log[k]) ensures exists m :: k < m < |log| && ClearsTheAsking(log[m]) {
            assert Asks(before[k]);
            var m :| k < m < n && ClearsTheAsking(before[m]);
            assert ClearsTheAsking(log[m]);
          }
        }
      } else {
        forall k | 0 <= k < |log| && Asks(log[k]) ensures exists m :: k < m < |log| && ClearsTheAsking(log[m]) {
          assert ClearsTheAsking(log[n]);
        }
      }
    }
  }

  lemma {:induction false} TimesDoNotDecrease(log: seq<Happening>, i: nat, j: nat)
    requires IsLawful(log) && i <= j < |log|
    ensures log[i].at <= log[j].at
    decreases j - i
  {
    if i < j {
      TimesDoNotDecrease(log, i, j - 1);
      AllowedAt(log, j);
      assert log[..j][j - 1] == log[j - 1];
    }
  }

  /** An asking that still counts at position k: nothing forgot it since. */
  predicate Counts(log: seq<Happening>, i: nat, k: nat) {
    i < k <= |log| && Asks(log[i]) && forall m | i < m < k :: !ClearsTheAsking(log[m])
  }

  lemma AskedIsTheLatestThatCounts(log: seq<Happening>, k: nat) returns (last: nat)
    requires IsLawful(log) && k <= |log|
    ensures Summarize(log[..k]).asked.Some? ==>
            Counts(log, last, k) && log[last].at == Summarize(log[..k]).asked.value
    ensures Summarize(log[..k]).asked.Some? ==> forall i: nat | Counts(log, i, k) :: log[i].at <= log[last].at
    ensures Summarize(log[..k]).asked.None? ==> forall i: nat :: !Counts(log, i, k)
  {
    var before := log[..k];
    last := AskedIsTheLastAsking(before);
    assert forall m | 0 <= m < k :: before[m] == log[m];
    if Summarize(before).asked.Some? {
      forall i: nat | Counts(log, i, k) ensures log[i].at <= log[last].at {
        assert i <= last;
        TimesDoNotDecrease(log, i, last);
      }
    } else {
      forall i: nat ensures !Counts(log, i, k) {
        if i < k && Asks(before[i]) {
          var m :| i < m < k && ClearsTheAsking(before[m]);
          assert ClearsTheAsking(log[m]);
        }
      }
    }
  }

  /**
    A menu is the client's, and not the pilot's, exactly when the client asked for a menu, or had a menu of
    its own go away, less than three seconds before the menu was first seen.
  */
  lemma MenuIsTheClientsWhenItAsked(log: seq<Happening>, k: nat)
    requires IsLawful(log) && k < |log| && log[k].FirstSeen?
    ensures log[k].owner == Client <==>
            exists i: nat :: Counts(log, i, k) && log[k].at - log[i].at < MENU_OWNERSHIP_WINDOW_MS
    ensures log[k].owner != Client <==> log[k].owner == Pilot
  {
    AllowedAt(log, k);
    var last := AskedIsTheLatestThatCounts(log, k);
  }

  predicate ChangesTheOwner(e: Happening) {
    e.FirstSeen? || e.Hidden? || e.Forgotten? || e.Restored?
  }

  lemma {:induction false} OwnerIsWhatWasFirstSeen(log: seq<Happening>) returns (i: nat)
    requires Summarize(log).owner != Nobody
    ensures i < |log| && log[i].FirstSeen? && log[i].owner == Summarize(log).owner
    ensures forall k | i < k < |log| :: !ChangesTheOwner(log[k])
  {
    var n := |log| - 1;
    if log[n].FirstSeen? {
      i := n;
    } else {
      i := OwnerIsWhatWasFirstSeen(log[..n]);
      assert forall k | i < k < n :: log[..n][k] == log[k];
    }
  }

  /** The owner stays what it was first seen as while nothing changes it. */
  lemma {:induction false} OwnerStays(log: seq<Happening>, seen: nat, k: nat)
    requires seen < k <= |log| && log[seen].FirstSeen?
    requires forall m | seen < m < k :: !ChangesTheOwner(log[m])
    ensures Summarize(log[..k]).owner == log[seen].owner
    decreases k
  {
    assert log[..k][..k - 1] == log[..k - 1];
    if seen < k - 1 {
      OwnerStays(log, seen, k - 1);
    }
  }

  // ----- The menu on screen -----

  predicate TakesOffTheScreen(e: Happening) {
    e.Reconnected? || (e.MenuPublished? && !e.shown)
  }

  /** The menu that is on screen at position k came up at an earlier one. */
  predicate CameUp(log: seq<Happening>, up: nat, k: nat) {
    && up < k <= |log| && log[up].MenuPublished? && log[up].shown && !Summarize(log[..up]).screen
    && forall m | up < m < k :: !TakesOffTheScreen(log[m])
  }

  lemma {:induction false} TheScreenCameUp(log: seq<Happening>, k: nat) returns (up: nat)
    requires k <= |log| && Summarize(log[..k]).screen
    ensures CameUp(log, up, k)
  {
    assert log[..k][..k - 1] == log[..k - 1];
    if Summarize(log[..k - 1]).screen {
      up := TheScreenCameUp(log, k - 1);
    } else {
      up := k - 1;
    }
  }

  lemma {:induction false} TheScreenStays(log: seq<Happening>, i: nat, j: nat)
    requires i <= j <= |log| && Summarize(log[..i]).screen
    requires forall m | i <= m < j :: !TakesOffTheScreen(log[m])
    ensures Summarize(log[..j]).screen
    decreases j
  {
    if i < j {
      TheScreenStays(log, i, j - 1);
      assert log[..j][..j - 1] == log[..j - 1];
    }
  }

  lemma GoneIsGivenUp(s: Summary, gone: Happening, next: Happening)
    requires gone.MenuPublished? && !gone.shown && s.owner != Nobody && IsAllowed(After(s, gone), next)
    ensures next.Hidden? && next.at == gone.at
  {
  }

  /** A menu that goes away is given up at once: the owner of a menu stays only while GSX shows it or is reconnected. */
  lemma MenuIsGivenUpAtOnce(log: seq<Happening>, seen: nat, m: nat)
    requires IsLawful(log) && seen < m && m + 1 < |log| && log[seen].FirstSeen? && log[seen].owner != Nobody
    requires forall l | seen < l <= m :: !ChangesTheOwner(log[l])
    requires log[m].MenuPublished? && !log[m].shown
    ensures log[m + 1].Hidden? && log[m + 1].at == log[m].at
  {
    OwnerStays(log, seen, m);
    SummaryOf(log, m + 1);
    AllowedAt(log, m + 1);
    GoneIsGivenUp(Summarize(log[..m]), log[m], log[m + 1]);
  }

  /** Without a reconnection the menu that was judged is the menu on screen: it never went away. */
  lemma JudgedMenuStaysUp(log: seq<Happening>, seen: nat, k: nat)
    requires IsLawful(log) && seen < k < |log| && log[seen].FirstSeen? && log[seen].owner != Nobody && !log[k].Hidden?
    requires forall m | seen < m < k :: !ChangesTheOwner(log[m]) && !log[m].Reconnected?
    ensures forall m | seen <= m < k :: !TakesOffTheScreen(log[m])
  {
    forall m | seen <= m < k ensures !TakesOffTheScreen(log[m]) {
      if m > seen && log[m].MenuPublished? && !log[m].shown {
        MenuIsGivenUpAtOnce(log, seen, m);
        assert false;
      }
    }
  }

  /** The client asked GSX for a menu, or had one of its own go away, less than three seconds before this one came up. */
  predicate WasAskedFor(log: seq<Happening>, up: nat)
    requires up < |log|
  {
    exists i: nat | i < up :: Counts(log, i, up) && log[up].at - log[i].at < MENU_OWNERSHIP_WINDOW_MS
  }

  lemma OwnedOnScreen(s: Summary, e: Happening)
    requires IsAllowed(s, e) && s.screen && (Asks(e) || s.owner == Client)
    requires !TakesOffTheScreen(e) && !ClearsTheAsking(e)
    ensures After(s, e).owner == Client && After(s, e).screen
  {
  }

  /** While a menu is on screen only its owner the client asks for anything, and it stays the owner until forgotten. */
  lemma {:induction false} AskedOnScreenStaysOwned(log: seq<Happening>, i: nat, k: nat)
    requires IsLawful(log) && i < k <= |log| && Summarize(log[..i]).screen && Asks(log[i])
    requires forall m | i <= m < k :: !TakesOffTheScreen(log[m]) && !ClearsTheAsking(log[m])
    ensures Summarize(log[..k]).owner == Client && Summarize(log[..k]).screen
    decreases k
  {
    if i < k - 1 {
      AskedOnScreenStaysOwned(log, i, k - 1);
    }
    OwnedAt(log, k);
  }

  lemma OwnedAt(log: seq<Happening>, k: nat)
    requires IsLawful(log) && 0 < k <= |log|
    requires Summarize(log[..k - 1]).screen && (Asks(log[k - 1]) || Summarize(log[..k - 1]).owner == Client)
    requires !TakesOffTheScreen(log[k - 1]) && !ClearsTheAsking(log[k - 1])
    ensures Summarize(log[..k]).owner == Client && Summarize(log[..k]).screen
  {
    SummaryOf(log, k);
    OwnedOnScreen(Summarize(log[..k - 1]), log[k - 1]);
  }

  /** A menu judged the client's while it was on screen was asked for before it came up, and not only before it was judged. */
  lemma JudgedOnScreenWasAskedFor(log: seq<Happening>, up: nat, seen: nat)
    requires IsLawful(log) && seen < |log| && CameUp(log, up, seen) && log[seen] == FirstSeen(log[seen].at, Client)
    ensures WasAskedFor(log, up)
  {
    MenuIsTheClientsWhenItAsked(log, seen);
    var i: nat :| Counts(log, i, seen) && log[seen].at - log[i].at < MENU_OWNERSHIP_WINDOW_MS;
    AskingWasBefore(log, up, i, seen);
    TimesDoNotDecrease(log, up, seen);
    assert Counts(log, i, up);
  }

  lemma ScreenAfter(log: seq<Happening>, up: nat, k: nat)
    requires CameUp(log, up, k)
    ensures Summarize(log[..k]).screen
  {
    assert log[..up + 1][..up] == log[..up];
    TheScreenStays(log, up + 1, k);
  }

  lemma NobodyOwnsWhatIsFirstSeen(log: seq<Happening>, seen: nat)
    requires IsLawful(log) && seen < |log| && log[seen].FirstSeen?
    ensures Summarize(log[..seen]).owner == Nobody
  {
    AllowedAt(log, seen);
  }

  lemma AskingWasBefore(log: seq<Happening>, up: nat, i: nat, seen: nat)
    requires IsLawful(log) && seen < |log| && CameUp(log, up, seen) && log[seen].FirstSeen? && Counts(log, i, seen)
    ensures i <= up
  {
    NobodyOwnsWhatIsFirstSeen(log, seen);
    if up < i {
      assert CameUp(log, up, i);
      ScreenAfter(log, up, i);
      AskedOnScreenStaysOwned(log, i, seen);
    }
  }

  /** The sends that take the menu on screen away: closing it, and any request, before which it is closed. */
  predicate TakesTheMenuAway(e: Happening) {
    e.Sent? && e.shown && (e.verb == MenuClose || IsArmedVerb(e.verb))
  }

  predicate ReconnectedBetween(log: seq<Happening>, i: nat, k: nat)
    requires k <= |log|
  {
    exists m :: i < m < k && log[m].Reconnected?
  }

  /**
    Whenever the client takes away a menu that is on screen, some menu was judged the client's and no later
    word on the owner was said.  That menu is the one on screen, which came up at `up`, exactly when GSX was not
    reconnected since the judgement; then the client asked for it less than three seconds before it came up.
  */
  lemma OnlyTheClientsMenuIsClosed(log: seq<Happening>, k: nat) returns (up: nat, seen: nat)
    requires IsLawful(log) && k < |log| && TakesTheMenuAway(log[k])
    ensures CameUp(log, up, k)
    ensures seen < k && log[seen] == FirstSeen(log[seen].at, Client)
    ensures forall m | seen < m < k :: !ChangesTheOwner(log[m])
    ensures up < seen <==> !ReconnectedBetween(log, seen, k)
    ensures up < seen ==> WasAskedFor(log, up)
  {
    AllowedAt(log, k);
    up := TheScreenCameUp(log, k);
    seen := OwnerIsWhatWasFirstSeen(log[..k]);
    assert forall m | seen <= m < k :: log[..k][m] == log[m];
    if up < seen {
      JudgedOnScreenWasAskedFor(log, up, seen);
    } else if !ReconnectedBetween(log, seen, k) {
      JudgedMenuStaysUp(log, seen, k);
      AllowedAt(log, seen);
      TheScreenStays(log, seen, up);
    }
  }
}
