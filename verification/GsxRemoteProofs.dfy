/** What a stream of patches and a snapshot leave in the published state. */
module GsxRemoteProofs {
  import opened Options
  import opened Json
  import opened GsxRemote

  datatype Patch = Patch(path: string, value: Json)

  function AfterPatches(remote: Remote, patches: seq<Patch>): Remote {
    if patches == [] then remote
    else
      var last := patches[|patches| - 1];
      ApplyPatch(AfterPatches(remote, patches[..|patches| - 1]), last.path, last.value).0
  }

  // ----- The table of keys -----

  lemma NamesDiffer(a: StateKey, b: StateKey)
    requires NameOf(a) == NameOf(b)
    ensures a == b
  {
  }

  predicate HasEachKeyOnce(fields: seq<StateKey>) {
    && (forall key: StateKey :: key in fields)
    && (forall i, j | 0 <= i < j < |fields| :: fields[i] != fields[j])
  }

  lemma TableHasEachKeyOnce()
    ensures HasEachKeyOnce(STATE_FIELDS)
  {
    var fields := STATE_FIELDS;
    forall key: StateKey ensures key in fields {
      var at := match key
        case Services => 0 case Menu => 1 case MenuShown => 2 case Simbrief => 3 case Operators => 4
        case GateProperties => 5 case Aircraft => 6 case Startup => 7 case Airport => 8 case Parking => 9
        case HandlerData => 10;
      assert fields[at] == key;
    }
  }

  lemma {:induction false} FieldNamedFinds(fields: seq<StateKey>, name: string, key: StateKey)
    ensures FieldNamed(fields, name) == Some(key) <==> key in fields && NameOf(key) == name
  {
    if fields != [] {
      FieldNamedFinds(fields[1..], name, key);
      if NameOf(fields[0]) == name && NameOf(key) == name {
        NamesDiffer(fields[0], key);
      }
    }
  }

  /** A path names a key exactly when it is the key's name behind a slash. */
  lemma PathOfKey(path: string, key: StateKey)
    ensures PatchedKey(path) == Some(key) <==> path == "/" + NameOf(key)
  {
    TableHasEachKeyOnce();
    if path != "" && path[0] == '/' {
      FieldNamedFinds(STATE_FIELDS, path[1..], key);
      assert path == "/" + path[1..];
    }
  }

  // ----- The parts are independent and cover the state -----

  lemma PartsAreIndependent(remote: Remote, part: Part, key: StateKey)
    ensures Get(Put(remote, part), key) == if key == KeyOf(part) then part else Get(remote, key)
  {
  }

  lemma PutKeepsTheRest(remote: Remote, part: Part)
    ensures var after := Put(remote, part);
            && after.connected == remote.connected && after.synced == remote.synced
            && after.messagesShown == remote.messagesShown && after.lastMessage == remote.lastMessage
  {
  }

  lemma PartsCoverTheState(a: Remote, b: Remote)
    requires forall key :: Get(a, key) == Get(b, key)
    requires a.connected == b.connected && a.synced == b.synced
    requires a.messagesShown == b.messagesShown && a.lastMessage == b.lastMessage
    ensures a == b
  {
    assert Get(a, Services) == Get(b, Services);
    assert Get(a, Menu) == Get(b, Menu);
    assert Get(a, MenuShown) == Get(b, MenuShown);
    assert Get(a, Simbrief) == Get(b, Simbrief);
    assert Get(a, Operators) == Get(b, Operators);
    assert Get(a, GateProperties) == Get(b, GateProperties);
    assert Get(a, Aircraft) == Get(b, Aircraft);
    assert Get(a, Startup) == Get(b, Startup);
    assert Get(a, Airport) == Get(b, Airport);
    assert Get(a, Parking) == Get(b, Parking);
    assert Get(a, HandlerData) == Get(b, HandlerData);
  }

  // ----- The last patch on a key decides it -----

  /** The patch carries something usable for the key. */
  predicate Decides(patch: Patch, key: StateKey) {
    PatchedKey(patch.path) == Some(key) && Meaning(key, patch.value).Some?
  }

  lemma OnePatch(remote: Remote, patch: Patch, key: StateKey)
    ensures Get(ApplyPatch(remote, patch.path, patch.value).0, key)
         == if Decides(patch, key) then Meaning(key, patch.value).value else Get(remote, key)
  {
    var patched := PatchedKey(patch.path);
    if patched.Some? && Meaning(patched.value, patch.value).Some? {
      PartsAreIndependent(remote, Meaning(patched.value, patch.value).value, key);
    }
  }

  /** A key nothing usable was patched on keeps the value it had. */
  lemma {:induction false} UnpatchedKeyKeepsItsValue(remote: Remote, patches: seq<Patch>, key: StateKey)
    requires forall i | 0 <= i < |patches| :: !Decides(patches[i], key)
    ensures Get(AfterPatches(remote, patches), key) == Get(remote, key)
  {
    if patches != [] {
      var before := patches[..|patches| - 1];
      UnpatchedKeyKeepsItsValue(remote, before, key);
      OnePatch(AfterPatches(remote, before), patches[|patches| - 1], key);
    }
  }

  /** Otherwise the last usable patch on the key decides it, whatever came before and on whatever state. */
  lemma {:induction false} LastPatchDecides(remote: Remote, patches: seq<Patch>, key: StateKey, last: nat)
    requires last < |patches| && Decides(patches[last], key)
    requires forall i | last < i < |patches| :: !Decides(patches[i], key)
    ensures Get(AfterPatches(remote, patches), key) == Meaning(key, patches[last].value).value
  {
    var n := |patches| - 1;
    OnePatch(AfterPatches(remote, patches[..n]), patches[n], key);
    if last < n {
      assert forall i | last < i < n :: patches[..n][i] == patches[i];
      LastPatchDecides(remote, patches[..n], key, last);
    }
  }

  lemma OnlyStartupCanBeUnusable(patch: Patch, key: StateKey)
    requires PatchedKey(patch.path) == Some(key)
    ensures Decides(patch, key) <==> key != Startup || SidText(Member(patch.value, "sid")).Some?
  {
  }

  lemma {:induction false} AfterPatchesSplits(remote: Remote, patches: seq<Patch>, n: nat)
    requires n <= |patches|
    ensures AfterPatches(remote, patches) == AfterPatches(AfterPatches(remote, patches[..n]), patches[n..])
  {
    if n == |patches| {
      assert patches[..n] == patches && patches[n..] == [];
    } else {
      var before := patches[..|patches| - 1];
      AfterPatchesSplits(remote, before, n);
      assert before[..n] == patches[..n] && before[n..] == patches[n..][..|patches[n..]| - 1];
    }
  }

  /**
    The very last patch on a key decides it, whatever came before; only a startup without a usable session
    identifier leaves the key as it was before that patch.
  */
  lemma VeryLastPatchDecides(remote: Remote, patches: seq<Patch>, key: StateKey, last: nat)
    requires last < |patches| && PatchedKey(patches[last].path) == Some(key)
    requires forall i | last < i < |patches| :: PatchedKey(patches[i].path) != Some(key)
    ensures var usable := key != Startup || SidText(Member(patches[last].value, "sid")).Some?;
            && (usable ==> Meaning(key, patches[last].value) == Some(Get(AfterPatches(remote, patches), key)))
            && (!usable ==> Get(AfterPatches(remote, patches), key) == Get(AfterPatches(remote, patches[..last]), key))
  {
    OnlyStartupCanBeUnusable(patches[last], key);
    if Decides(patches[last], key) {
      LastPatchDecides(remote, patches, key, last);
    } else {
      AfterPatchesSplits(remote, patches, last);
      UnpatchedKeyKeepsItsValue(AfterPatches(remote, patches[..last]), patches[last..], key);
    }
  }

  // ----- Messages -----

  predicate IsAShownMessage(patch: Patch) {
    patch.path == MESSAGE_PATH && ShownMessage(patch.value).Some?
  }

  lemma NoKeyIsCalledMessage(key: StateKey)
    ensures NameOf(key) != "message" && "/" + NameOf(key) != MESSAGE_PATH
  {
    assert ("/" + NameOf(key))[1..] == NameOf(key);
    assert MESSAGE_PATH[1..] == "message";
  }

  lemma MessageIsNoStateKey()
    ensures PatchedKey(MESSAGE_PATH).None?
  {
    var key := PatchedKey(MESSAGE_PATH);
    if key.Some? {
      PathOfKey(MESSAGE_PATH, key.value);
      NoKeyIsCalledMessage(key.value);
    }
  }

  lemma OnePatchCounts(remote: Remote, patch: Patch)
    ensures var after := ApplyPatch(remote, patch.path, patch.value).0;
            && after.connected == remote.connected && after.synced == remote.synced
            && after.messagesShown == remote.messagesShown + (if IsAShownMessage(patch) then 1 else 0)
            && after.lastMessage == if IsAShownMessage(patch) then ShownMessage(patch.value).value else remote.lastMessage
  {
    MessageIsNoStateKey();
    var patched := PatchedKey(patch.path);
    if patched.Some? && Meaning(patched.value, patch.value).Some? {
      PutKeepsTheRest(remote, Meaning(patched.value, patch.value).value);
    }
  }

  function ShownAt(patches: seq<Patch>): set<nat> {
    set i: nat | i < |patches| && IsAShownMessage(patches[i])
  }

  lemma ShownAtOneMore(patches: seq<Patch>)
    requires patches != []
    ensures var n := |patches| - 1;
            |ShownAt(patches)| == |ShownAt(patches[..n])| + if IsAShownMessage(patches[n]) then 1 else 0
  {
    var n := |patches| - 1;
    assert ShownAt(patches) == ShownAt(patches[..n]) + if IsAShownMessage(patches[n]) then {n} else {};
  }

  lemma {:induction false} PatchesCount(remote: Remote, patches: seq<Patch>)
    ensures var after := AfterPatches(remote, patches);
            && after.messagesShown == remote.messagesShown + |ShownAt(patches)|
            && after.connected == remote.connected && after.synced == remote.synced
  {
    if patches != [] {
      var n := |patches| - 1;
      PatchesCount(remote, patches[..n]);
      OnePatchCounts(AfterPatches(remote, patches[..n]), patches[n]);
      ShownAtOneMore(patches);
    }
  }

  /** The count is the number of messages the pilot saw since the connection, no more and no fewer. */
  lemma EveryShownMessageIsCountedOnce(before: Remote, patches: seq<Patch>)
    ensures var after := AfterPatches(ApplyConnection(before, true), patches);
            after.messagesShown == |ShownAt(patches)| && after.connected && !after.synced
  {
    PatchesCount(ApplyConnection(before, true), patches);
  }

  // ----- Patches on distinct keys commute -----

  /** What a patch touches: a part of the state, the message, or nothing. */
  datatype Target = OnKey(key: StateKey) | OnMessage | OnNothing

  function TargetOf(patch: Patch): Target {
    match PatchedKey(patch.path)
    case Some(key) => OnKey(key)
    case None => if patch.path == MESSAGE_PATH then OnMessage else OnNothing
  }

  lemma TwoPatches(remote: Remote, p: Patch, q: Patch)
    ensures AfterPatches(remote, [p, q]) == ApplyPatch(ApplyPatch(remote, p.path, p.value).0, q.path, q.value).0
  {
    assert [p, q][..1] == [p];
    assert [p][..0] == [];
    assert AfterPatches(remote, []) == remote;
    assert AfterPatches(remote, [p]) == ApplyPatch(remote, p.path, p.value).0;
  }

  lemma PatchesOnDistinctTargetsCommute(remote: Remote, p: Patch, q: Patch)
    requires TargetOf(p) != TargetOf(q) || TargetOf(p) == OnNothing
    ensures AfterPatches(remote, [p, q]) == AfterPatches(remote, [q, p])
  {
    var pq := AfterPatches(remote, [p, q]);
    var qp := AfterPatches(remote, [q, p]);
    var afterP := ApplyPatch(remote, p.path, p.value).0;
    var afterQ := ApplyPatch(remote, q.path, q.value).0;
    TwoPatches(remote, p, q);
    TwoPatches(remote, q, p);
    forall key ensures Get(pq, key) == Get(qp, key) {
      OnePatch(remote, p, key);
      OnePatch(remote, q, key);
      OnePatch(afterP, q, key);
      OnePatch(afterQ, p, key);
    }
    OnePatchCounts(remote, p);
    OnePatchCounts(remote, q);
    OnePatchCounts(afterP, q);
    OnePatchCounts(afterQ, p);
    PartsCoverTheState(pq, qp);
  }

  // ----- A snapshot is its keys patched in any order -----

  function PatchesOf(snapshot: map<string, Json>, names: seq<string>): (patches: seq<Patch>)
    requires forall i | 0 <= i < |names| :: names[i] in snapshot
    ensures |patches| == |names|
  {
    seq(|names|, i requires 0 <= i < |names| => Patch("/" + names[i], snapshot[names[i]]))
  }

  predicate HasNoTwins(names: seq<string>) {
    forall i, j | 0 <= i < j < |names| :: names[i] != names[j]
  }

  /** What a key holds after a snapshot: the published value when there is a usable one, else what it held. */
  function AfterSnapshot(remote: Remote, snapshot: map<string, Json>, key: StateKey): Part {
    if NameOf(key) in snapshot && Meaning(key, snapshot[NameOf(key)]).Some?
    then Meaning(key, snapshot[NameOf(key)]).value
    else Get(remote, key)
  }

  lemma MemberSetsItsKey(remote: Remote, own: StateKey, snapshot: map<string, Json>, key: StateKey)
    ensures var after := ApplyMember(remote, own, snapshot);
            && Get(after, key) == (if key == own then AfterSnapshot(remote, snapshot, key) else Get(remote, key))
            && after.connected == remote.connected && after.synced == remote.synced
            && after.messagesShown == remote.messagesShown && after.lastMessage == remote.lastMessage
  {
    if NameOf(own) in snapshot && Meaning(own, snapshot[NameOf(own)]).Some? {
      PartsAreIndependent(remote, Meaning(own, snapshot[NameOf(own)]).value, key);
      PutKeepsTheRest(remote, Meaning(own, snapshot[NameOf(own)]).value);
    }
  }

  lemma {:induction false} FieldsSetTheirKeys(remote: Remote, fields: seq<StateKey>, snapshot: map<string, Json>, key: StateKey)
    requires forall i, j | 0 <= i < j < |fields| :: fields[i] != fields[j]
    ensures var after := ApplyFields(remote, fields, snapshot);
            && Get(after, key) == (if key in fields then AfterSnapshot(remote, snapshot, key) else Get(remote, key))
            && after.connected == remote.connected && after.synced == remote.synced
            && after.messagesShown == remote.messagesShown && after.lastMessage == remote.lastMessage
    decreases |fields|
  {
    if fields != [] {
      MemberSetsItsKey(remote, fields[0], snapshot, key);
      FieldsSetTheirKeys(ApplyMember(remote, fields[0], snapshot), fields[1..], snapshot, key);
    }
  }

  lemma SnapshotSetsEveryKey(remote: Remote, snapshot: map<string, Json>, key: StateKey)
    ensures var after := ApplySnapshot(remote, snapshot);
            && Get(after, key) == AfterSnapshot(remote, snapshot, key)
            && after.connected == remote.connected && after.synced
            && after.messagesShown == remote.messagesShown && after.lastMessage == remote.lastMessage
  {
    TableHasEachKeyOnce();
    FieldsSetTheirKeys(remote, STATE_FIELDS, snapshot, key);
  }

  ghost predicate ListsTheMembers(names: seq<string>, snapshot: map<string, Json>) {
    HasNoTwins(names) && forall name :: name in names <==> name in snapshot
  }

  lemma MemberDecides(snapshot: map<string, Json>, name: string, key: StateKey)
    requires name in snapshot
    ensures Decides(Patch("/" + name, snapshot[name]), key) <==> name == NameOf(key) && Meaning(key, snapshot[name]).Some?
  {
    PathOfKey("/" + name, key);
    assert ("/" + name)[1..] == name && ("/" + NameOf(key))[1..] == NameOf(key);
  }

  lemma MembersSetEveryKey(remote: Remote, snapshot: map<string, Json>, names: seq<string>, key: StateKey)
    requires ListsTheMembers(names, snapshot)
    ensures Get(AfterPatches(remote, PatchesOf(snapshot, names)), key) == AfterSnapshot(remote, snapshot, key)
  {
    var patches := PatchesOf(snapshot, names);
    forall i | 0 <= i < |names|
      ensures Decides(patches[i], key) <==> names[i] == NameOf(key) && Meaning(key, snapshot[names[i]]).Some?
    {
      MemberDecides(snapshot, names[i], key);
    }
    if NameOf(key) in snapshot && Meaning(key, snapshot[NameOf(key)]).Some? {
      var at :| 0 <= at < |names| && names[at] == NameOf(key);
      LastPatchDecides(remote, patches, key, at);
    } else {
      UnpatchedKeyKeepsItsValue(remote, patches, key);
    }
  }

  /** The snapshot has a member that would be shown to the pilot if it were patched. */
  predicate BringsAMessage(snapshot: map<string, Json>) {
    "message" in snapshot && ShownMessage(snapshot["message"]).Some?
  }

  lemma MemberIsShown(snapshot: map<string, Json>, names: seq<string>, i: nat)
    requires ListsTheMembers(names, snapshot) && i < |names|
    ensures IsAShownMessage(PatchesOf(snapshot, names)[i]) <==> names[i] == "message" && BringsAMessage(snapshot)
  {
    assert names[i] in names;
    assert ("/" + names[i])[1..] == names[i] && MESSAGE_PATH[1..] == "message";
  }

  /** Patching the members shows exactly the message that the snapshot brings. */
  lemma MembersShowTheMessage(snapshot: map<string, Json>, names: seq<string>)
    requires ListsTheMembers(names, snapshot)
    ensures |ShownAt(PatchesOf(snapshot, names))| == if BringsAMessage(snapshot) then 1 else 0
    ensures !BringsAMessage(snapshot) ==> forall i: nat | i < |names| :: !IsAShownMessage(PatchesOf(snapshot, names)[i])
  {
    var patches := PatchesOf(snapshot, names);
    forall i: nat | i < |names| ensures IsAShownMessage(patches[i]) <==> names[i] == "message" && BringsAMessage(snapshot) {
      MemberIsShown(snapshot, names, i);
    }
    if BringsAMessage(snapshot) {
      var at: nat :| at < |names| && names[at] == "message";
      assert ShownAt(patches) == {at};
    } else {
      assert ShownAt(patches) == {};
    }
  }

  /**
    Patching a snapshot's members one by one, in any order, gives the snapshot's state but for the synced mark,
    if and only if the snapshot brings no message: a snapshot never counts one.
  */
  lemma SnapshotIsItsMembersInAnyOrder(remote: Remote, snapshot: map<string, Json>, names: seq<string>)
    requires ListsTheMembers(names, snapshot)
    ensures ApplySnapshot(remote, snapshot) == AfterPatches(remote, PatchesOf(snapshot, names)).(synced := true)
            <==> !BringsAMessage(snapshot)
  {
    var patched := AfterPatches(remote, PatchesOf(snapshot, names)).(synced := true);
    MembersShowTheMessage(snapshot, names);
    if BringsAMessage(snapshot) {
      PatchesCount(remote, PatchesOf(snapshot, names));
      SnapshotSetsEveryKey(remote, snapshot, Services);
      assert patched.messagesShown != ApplySnapshot(remote, snapshot).messagesShown;
    } else {
      forall key ensures Get(patched, key) == Get(ApplySnapshot(remote, snapshot), key) {
        MembersAndSnapshotAgree(remote, snapshot, names, key);
      }
      RestOfTheState(remote, snapshot, names);
      PartsCoverTheState(patched, ApplySnapshot(remote, snapshot));
    }
  }

  /** One such snapshot: patched, it shows the pilot a text; as a snapshot it does not. */
  lemma SnapshotsCountNoMessage()
    ensures var snapshot := map["message" := Obj(map["visible" := Bool(true), "text" := Str("Boarding")])];
            && ApplySnapshot(FRESH, snapshot).messagesShown == 0
            && AfterPatches(FRESH, PatchesOf(snapshot, ["message"])).messagesShown == 1
  {
    var snapshot := map["message" := Obj(map["visible" := Bool(true), "text" := Str("Boarding")])];
    assert ShownMessage(snapshot["message"]) == Some("Boarding");
    assert ListsTheMembers(["message"], snapshot);
    MembersShowTheMessage(snapshot, ["message"]);
    PatchesCount(FRESH, PatchesOf(snapshot, ["message"]));
    SnapshotSetsEveryKey(FRESH, snapshot, Services);
  }

  lemma SyncingSetsNoKey(remote: Remote, key: StateKey)
    ensures Get(remote.(synced := true), key) == Get(remote, key)
  {
  }

  lemma MembersAndSnapshotAgree(remote: Remote, snapshot: map<string, Json>, names: seq<string>, key: StateKey)
    requires ListsTheMembers(names, snapshot)
    ensures Get(AfterPatches(remote, PatchesOf(snapshot, names)).(synced := true), key) == Get(ApplySnapshot(remote, snapshot), key)
  {
    MembersSetEveryKey(remote, snapshot, names, key);
    SnapshotSetsEveryKey(remote, snapshot, key);
    SyncingSetsNoKey(AfterPatches(remote, PatchesOf(snapshot, names)), key);
  }

  lemma RestOfTheState(remote: Remote, snapshot: map<string, Json>, names: seq<string>)
    requires ListsTheMembers(names, snapshot) && !BringsAMessage(snapshot)
    ensures var patched := AfterPatches(remote, PatchesOf(snapshot, names));
            var snapped := ApplySnapshot(remote, snapshot);
            && patched.connected == snapped.connected && snapped.synced
            && patched.messagesShown == snapped.messagesShown && patched.lastMessage == snapped.lastMessage
  {
    SnapshotSetsEveryKey(remote, snapshot, Services);
    MembersShowTheMessage(snapshot, names);
    NothingIsShown(remote, PatchesOf(snapshot, names));
  }

  lemma {:induction false} NothingIsShown(remote: Remote, patches: seq<Patch>)
    requires forall i: nat | i < |patches| :: !IsAShownMessage(patches[i])
    ensures var after := AfterPatches(remote, patches);
            && after.connected == remote.connected
            && after.messagesShown == remote.messagesShown && after.lastMessage == remote.lastMessage
  {
    if patches != [] {
      var before := patches[..|patches| - 1];
      NothingIsShown(remote, before);
      OnePatchCounts(AfterPatches(remote, before), patches[|patches| - 1]);
    }
  }
}
