/** Pointers are read as they are written, patches touch what they name, and expanding a log is done in one pass. */
module WireExpandProperties {
  import opened Options
  import Json
  import opened WireExpand

  // ----- Pointers -----

  /** What is left to do of an escaped token after its slashes are back. */
  function EscapeTildes(token: string): string {
    if token == "" then "" else (if token[0] == '~' then "~0" else [token[0]]) + EscapeTildes(token[1..])
  }

  lemma {:induction false} SlashesComeBack(token: string)
    ensures ReplacePairs(Escape(token), '~', '1', '/') == EscapeTildes(token)
  {
    if token != "" {
      var rest := Escape(token[1..]);
      SlashesComeBack(token[1..]);
      if token[0] == '~' {
        assert ("~0" + rest)[1..] == "0" + rest && ("0" + rest)[1..] == rest;
      } else if token[0] == '/' {
        assert ("~1" + rest)[2..] == rest;
      } else {
        assert ([token[0]] + rest)[1..] == rest;
      }
    }
  }

  lemma {:induction false} TildesComeBack(token: string)
    ensures ReplacePairs(EscapeTildes(token), '~', '0', '~') == token
  {
    if token != "" {
      var rest := EscapeTildes(token[1..]);
      TildesComeBack(token[1..]);
      if token[0] == '~' {
        assert ("~0" + rest)[2..] == rest;
      } else {
        assert ([token[0]] + rest)[1..] == rest;
      }
    }
  }

  /** Undoing the two escapes in this order gives every token back. */
  lemma TokenRoundTrip(token: string)
    ensures Unescape(Escape(token)) == token
  {
    SlashesComeBack(token);
    TildesComeBack(token);
  }

  function EscapeAll(tokens: seq<string>): seq<string> {
    seq(|tokens|, i requires 0 <= i < |tokens| => Escape(tokens[i]))
  }

  lemma {:induction false} EscapedHasNoSlash(token: string)
    ensures '/' !in Escape(token)
  {
    if token != "" {
      EscapedHasNoSlash(token[1..]);
    }
  }

  lemma {:induction false} SplitBehindAPart(part: string, rest: string)
    requires '/' !in part && (rest == "" || rest[0] == '/')
    ensures SplitAtSlashes(part + rest) == [part] + SplitAtSlashes(rest)[1..] && SplitAtSlashes(rest)[0] == ""
  {
    if part == "" {
      assert part + rest == rest;
    } else {
      assert part[0] in part && (part + rest)[1..] == part[1..] + rest;
      assert forall c | c in part[1..] :: c in part;
      SplitBehindAPart(part[1..], rest);
      assert part == [part[0]] + part[1..];
    }
  }

  lemma SplitBehindASlash(text: string)
    ensures SplitAtSlashes("/" + text) == [""] + SplitAtSlashes(text)
  {
    assert ("/" + text)[1..] == text;
  }

  lemma OneMorePartSplits(part: string, rest: string, parts: seq<string>)
    requires '/' !in part && (rest == "" || rest[0] == '/') && SplitAtSlashes(rest) == [""] + parts
    ensures SplitAtSlashes("/" + part + rest) == [""] + ([part] + parts)
  {
    SplitBehindAPart(part, rest);
    SplitBehindASlash(part + rest);
    assert "/" + part + rest == "/" + (part + rest);
    assert SplitAtSlashes(rest)[1..] == parts;
  }

  lemma EscapeAllOfMore(tokens: seq<string>)
    requires tokens != []
    ensures EscapeAll(tokens) == [Escape(tokens[0])] + EscapeAll(tokens[1..])
  {
  }

  lemma {:induction false} PointerSplits(tokens: seq<string>)
    ensures SplitAtSlashes(Pointer(tokens)) == [""] + EscapeAll(tokens)
  {
    if tokens != [] {
      PointerSplits(tokens[1..]);
      EscapedHasNoSlash(tokens[0]);
      OneMorePartSplits(Escape(tokens[0]), Pointer(tokens[1..]), EscapeAll(tokens[1..]));
      EscapeAllOfMore(tokens);
    }
  }

  /** Every list of tokens is read back from its pointer. */
  lemma PointerRoundTrip(tokens: seq<string>)
    ensures PointerTokens(Pointer(tokens)) == tokens
  {
    PointerSplits(tokens);
    if tokens != [] {
      var parts := SplitAtSlashes(Pointer(tokens))[1..];
      assert parts == EscapeAll(tokens);
      forall i | 0 <= i < |tokens| ensures Unescape(parts[i]) == tokens[i] {
        TokenRoundTrip(tokens[i]);
      }
    }
  }

  /** Every tilde is followed by 0 or 1, and there is no slash. */
  predicate IsEscaped(part: string) {
    part == ""
    || (part[0] == '~' && |part| > 1 && (part[1] == '0' || part[1] == '1') && IsEscaped(part[2..]))
    || (part[0] != '~' && part[0] != '/' && IsEscaped(part[1..]))
  }

  function Plain(part: string): string
    requires IsEscaped(part)
  {
    if part == "" then ""
    else if part[0] == '~' then [if part[1] == '0' then '~' else '/'] + Plain(part[2..])
    else [part[0]] + Plain(part[1..])
  }

  lemma {:induction false} EscapedIsTheEscapeOfItsPlain(part: string)
    requires IsEscaped(part)
    ensures Escape(Plain(part)) == part
  {
    if part != "" {
      if part[0] == '~' {
        EscapedIsTheEscapeOfItsPlain(part[2..]);
        assert Plain(part)[1..] == Plain(part[2..]);
        assert part == [part[0], part[1]] + part[2..];
      } else {
        EscapedIsTheEscapeOfItsPlain(part[1..]);
        assert Plain(part)[1..] == Plain(part[1..]);
      }
    }
  }

  lemma {:induction false} EscapesAreEscaped(token: string)
    ensures IsEscaped(Escape(token))
  {
    if token != "" {
      EscapesAreEscaped(token[1..]);
      var rest := Escape(token[1..]);
      assert ("~0" + rest)[2..] == rest && ("~1" + rest)[2..] == rest && ([token[0]] + rest)[1..] == rest;
    }
  }

  /** A part of a pointer is written back as it was read exactly when it is properly escaped. */
  lemma PartIsWrittenBack(part: string)
    ensures Escape(Unescape(part)) == part <==> IsEscaped(part)
  {
    if IsEscaped(part) {
      EscapedIsTheEscapeOfItsPlain(part);
      TokenRoundTrip(Plain(part));
    }
    EscapesAreEscaped(Unescape(part));
  }

  // ----- Containers -----

  lemma ChildOfWithChild(container: Value, token: string, ints: Indexing, child: Value)
    requires Child(container, token, ints).Some?
    ensures Child(WithChild(container, token, ints, child), token, ints) == Some(child)
  {
  }

  lemma WithItsOwnChild(container: Value, token: string, ints: Indexing)
    requires Child(container, token, ints).Some?
    ensures WithChild(container, token, ints, Child(container, token, ints).value) == container
  {
    if container.Obj? {
      assert container.fields[token := container.fields[token]] == container.fields;
    }
  }

  lemma WithChildTwice(container: Value, token: string, ints: Indexing, first: Value, second: Value)
    requires Child(container, token, ints).Some?
    ensures WithChild(WithChild(container, token, ints, first), token, ints, second) == WithChild(container, token, ints, second)
  {
  }

  function Resolve(document: Value, tokens: seq<string>, ints: Indexing): Option<Value>
    decreases |tokens|
  {
    if tokens == [] then Some(document)
    else
      match Child(document, tokens[0], ints)
      case None => None
      case Some(child) => Resolve(child, tokens[1..], ints)
  }

  /** The container that holds the place a pointer names. */
  function Holder(document: Value, tokens: seq<string>, ints: Indexing): Option<Value>
    requires tokens != []
  {
    Resolve(document, tokens[..|tokens| - 1], ints)
  }

  lemma HolderUnder(document: Value, tokens: seq<string>, ints: Indexing)
    requires |tokens| > 1
    ensures Child(document, tokens[0], ints).Some? ==>
            Holder(document, tokens, ints) == Holder(Child(document, tokens[0], ints).value, tokens[1..], ints)
    ensures Child(document, tokens[0], ints).None? ==> Holder(document, tokens, ints).None?
  {
    assert tokens[..|tokens| - 1][1..] == tokens[1..][..|tokens| - 2];
  }

  /** The place is a new member, or a position in or right behind a list that is not counted from its end. */
  predicate IsAFreshPlace(holder: Value, last: string, ints: Indexing) {
    (holder.Obj? && last !in holder.fields)
    || (holder.Arr? && last != "-" && ints(last).Some? && 0 <= ints(last).value <= |holder.items|)
  }

  predicate IsATakenPlace(holder: Value, last: string, ints: Indexing) {
    (holder.Obj? && last in holder.fields)
    || (holder.Arr? && last != "-" && ints(last).Some? && 0 <= ints(last).value < |holder.items|)
  }

  function Adding(path: string, value: Value): Operation {
    Operation(path, ADD, Some(value))
  }

  function Removing(path: string): Operation {
    Operation(path, REMOVE, None)
  }

  function Replacing(path: string, value: Value): Operation {
    Operation(path, REPLACE, Some(value))
  }

  lemma RemovingUndoesAddingHere(holder: Value, last: string, path: string, value: Value, ints: Indexing)
    requires IsAFreshPlace(holder, last, ints)
    ensures var added := Edit(holder, last, Adding(path, value), ints);
            && added.Some? && Edit(added.value, last, Removing(path), ints) == Some(holder)
            && Child(added.value, last, ints) == Some(value)
  {
    if holder.Obj? {
      assert holder.fields[last := value] - {last} == holder.fields;
    } else {
      var at := ints(last).value;
      var items := holder.items[..at] + [value] + holder.items[at..];
      assert items[..at] + items[at + 1..] == holder.items;
    }
  }

  lemma ReplacingIsRemovingAndAddingHere(holder: Value, last: string, path: string, value: Value, ints: Indexing)
    requires IsATakenPlace(holder, last, ints)
    ensures var removed := Edit(holder, last, Removing(path), ints);
            var replaced := Edit(holder, last, Replacing(path, value), ints);
            && removed.Some? && replaced.Some? && Edit(removed.value, last, Adding(path, value), ints) == replaced
            && Child(replaced.value, last, ints) == Some(value)
  {
    if holder.Obj? {
      assert (holder.fields - {last})[last := value] == holder.fields[last := value];
    } else {
      var at := ints(last).value;
      var items := holder.items[..at] + holder.items[at + 1..];
      assert items[..at] + [value] + items[at..] == holder.items[at := value];
    }
  }

  lemma EditingUnderAChild(document: Value, tokens: seq<string>, operation: Operation, ints: Indexing)
    requires |tokens| > 1 && Child(document, tokens[0], ints).Some?
    requires EditUnder(Child(document, tokens[0], ints).value, tokens[1..], operation, ints).Some?
    ensures var edited := EditUnder(Child(document, tokens[0], ints).value, tokens[1..], operation, ints).value;
            EditUnder(document, tokens, operation, ints) == Some(WithChild(document, tokens[0], ints, edited))
  {
  }

  /** Two edits of one place, one after the other, are two edits of its child. */
  lemma EditingTwiceUnderAChild(document: Value, tokens: seq<string>, first: Operation, second: Operation, ints: Indexing)
    requires |tokens| > 1 && Child(document, tokens[0], ints).Some?
    requires var child := Child(document, tokens[0], ints).value;
             && EditUnder(child, tokens[1..], first, ints).Some?
             && EditUnder(EditUnder(child, tokens[1..], first, ints).value, tokens[1..], second, ints).Some?
    ensures var child := Child(document, tokens[0], ints).value;
            var once := EditUnder(child, tokens[1..], first, ints).value;
            var twice := EditUnder(once, tokens[1..], second, ints).value;
            && EditUnder(document, tokens, first, ints) == Some(WithChild(document, tokens[0], ints, once))
            && EditUnder(WithChild(document, tokens[0], ints, once), tokens, second, ints)
               == Some(WithChild(document, tokens[0], ints, twice))
  {
    var child := Child(document, tokens[0], ints).value;
    var once := EditUnder(child, tokens[1..], first, ints).value;
    var twice := EditUnder(once, tokens[1..], second, ints).value;
    EditingUnderAChild(document, tokens, first, ints);
    ChildOfWithChild(document, tokens[0], ints, once);
    EditingUnderAChild(WithChild(document, tokens[0], ints, once), tokens, second, ints);
    WithChildTwice(document, tokens[0], ints, once, twice);
  }

  /** Adding at a fresh place and removing it again leaves the document as it was. */
  lemma {:induction false} RemovingUndoesAdding(document: Value, tokens: seq<string>, path: string, value: Value, ints: Indexing)
    requires tokens != [] && Holder(document, tokens, ints).Some?
    requires IsAFreshPlace(Holder(document, tokens, ints).value, tokens[|tokens| - 1], ints)
    ensures var added := EditUnder(document, tokens, Adding(path, value), ints);
            && added.Some? && EditUnder(added.value, tokens, Removing(path), ints) == Some(document)
            && Resolve(added.value, tokens, ints) == Some(value)
    decreases |tokens|
  {
    if |tokens| == 1 {
      assert tokens[..0] == [] && tokens[1..] == [];
      RemovingUndoesAddingHere(document, tokens[0], path, value, ints);
    } else {
      HolderUnder(document, tokens, ints);
      var child := Child(document, tokens[0], ints).value;
      RemovingUndoesAdding(child, tokens[1..], path, value, ints);
      EditingTwiceUnderAChild(document, tokens, Adding(path, value), Removing(path), ints);
      WithItsOwnChild(document, tokens[0], ints);
      ChildOfWithChild(document, tokens[0], ints, EditUnder(child, tokens[1..], Adding(path, value), ints).value);
    }
  }

  /** Replacing what is there is removing it and adding the new value, and the new value is then found there. */
  lemma {:induction false} ReplacingIsRemovingAndAdding(document: Value, tokens: seq<string>, path: string, value: Value, ints: Indexing)
    requires tokens != [] && Holder(document, tokens, ints).Some?
    requires IsATakenPlace(Holder(document, tokens, ints).value, tokens[|tokens| - 1], ints)
    ensures var removed := EditUnder(document, tokens, Removing(path), ints);
            var replaced := EditUnder(document, tokens, Replacing(path, value), ints);
            && removed.Some? && replaced.Some? && EditUnder(removed.value, tokens, Adding(path, value), ints) == replaced
            && Resolve(replaced.value, tokens, ints) == Some(value)
    decreases |tokens|
  {
    if |tokens| == 1 {
      assert tokens[..0] == [] && tokens[1..] == [];
      ReplacingIsRemovingAndAddingHere(document, tokens[0], path, value, ints);
    } else {
      HolderUnder(document, tokens, ints);
      var child := Child(document, tokens[0], ints).value;
      ReplacingIsRemovingAndAdding(child, tokens[1..], path, value, ints);
      EditingTwiceUnderAChild(document, tokens, Removing(path), Adding(path, value), ints);
      EditingUnderAChild(document, tokens, Replacing(path, value), ints);
      ChildOfWithChild(document, tokens[0], ints, EditUnder(child, tokens[1..], Replacing(path, value), ints).value);
    }
  }

  /** As patches, with the place written as a pointer: adding and removing undo each other, replacing is removing and adding. */
  lemma PatchesOnPointers(document: Value, tokens: seq<string>, value: Value, ints: Indexing)
    requires tokens != [] && Holder(document, tokens, ints).Some?
    ensures var holder, last, path := Holder(document, tokens, ints).value, tokens[|tokens| - 1], Pointer(tokens);
            && (IsAFreshPlace(holder, last, ints) ==> ApplyPatch(document, [Adding(path, value), Removing(path)], ints) == Some(document))
            && (IsATakenPlace(holder, last, ints) ==>
                  ApplyPatch(document, [Removing(path), Adding(path, value)], ints) == ApplyPatch(document, [Replacing(path, value)], ints))
  {
    var holder, last, path := Holder(document, tokens, ints).value, tokens[|tokens| - 1], Pointer(tokens);
    PointerRoundTrip(tokens);
    PatchOfOne(document, Adding(path, value), ints);
    PatchOfOne(document, Removing(path), ints);
    PatchOfOne(document, Replacing(path, value), ints);
    assert [Adding(path, value), Removing(path)][..1] == [Adding(path, value)];
    assert [Removing(path), Adding(path, value)][..1] == [Removing(path)];
    if IsAFreshPlace(holder, last, ints) {
      RemovingUndoesAdding(document, tokens, path, value, ints);
    }
    if IsATakenPlace(holder, last, ints) {
      ReplacingIsRemovingAndAdding(document, tokens, path, value, ints);
    }
  }

  lemma PatchOfOne(document: Value, operation: Operation, ints: Indexing)
    ensures ApplyPatch(document, [operation], ints) == ApplyOperation(document, operation, ints)
  {
    assert [operation][..0] == [];
  }

  /** Two tokens that name different members of an object, or different positions of a list. */
  predicate NameDifferentChildren(container: Value, a: string, b: string, ints: Indexing) {
    match container
    case Obj(_) => a != b
    case Arr(items) =>
      (match (ints(a), ints(b))
       case (Some(i), Some(j)) => ListPosition(i, |items|) != ListPosition(j, |items|)
       case _ => true)
    case _ => true
  }

  /** The places part ways somewhere above what the first of them names. */
  predicate PartWays(document: Value, tokens: seq<string>, other: seq<string>, ints: Indexing)
    decreases |tokens|
  {
    && tokens != [] && other != []
    && (NameDifferentChildren(document, tokens[0], other[0], ints)
        || (tokens[0] == other[0] && Child(document, tokens[0], ints).Some?
            && PartWays(Child(document, tokens[0], ints).value, tokens[1..], other[1..], ints)))
  }

  lemma OtherChildStays(container: Value, token: string, other: string, child: Value, ints: Indexing)
    requires NameDifferentChildren(container, token, other, ints) && Child(container, token, ints).Some?
    ensures Child(WithChild(container, token, ints, child), other, ints) == Child(container, other, ints)
  {
  }

  lemma OtherChildStaysHere(container: Value, last: string, other: string, path: string, value: Value, ints: Indexing)
    requires NameDifferentChildren(container, last, other, ints) && Edit(container, last, Replacing(path, value), ints).Some?
    ensures Child(Edit(container, last, Replacing(path, value), ints).value, other, ints) == Child(container, other, ints)
  {
  }

  /** A replacement changes nothing at any place that parts ways with the one it names. */
  lemma {:induction false} ReplacingTouchesNothingElse(document: Value, tokens: seq<string>, other: seq<string>, path: string, value: Value, ints: Indexing)
    requires tokens != [] && PartWays(document, tokens, other, ints)
    requires EditUnder(document, tokens, Replacing(path, value), ints).Some?
    ensures Resolve(EditUnder(document, tokens, Replacing(path, value), ints).value, other, ints) == Resolve(document, other, ints)
    decreases |tokens|
  {
    if |tokens| == 1 {
      assert tokens[1..] == [];
      OtherChildStaysHere(document, tokens[0], other[0], path, value, ints);
    } else {
      var child := Child(document, tokens[0], ints).value;
      var edited := EditUnder(child, tokens[1..], Replacing(path, value), ints).value;
      if NameDifferentChildren(document, tokens[0], other[0], ints) {
        OtherChildStays(document, tokens[0], other[0], edited, ints);
      } else {
        ChildOfWithChild(document, tokens[0], ints, edited);
        ReplacingTouchesNothingElse(child, tokens[1..], other[1..], path, value, ints);
      }
    }
  }

  /** An edit under a pointer is the edit of the container that holds the place, and of nothing else. */
  lemma {:induction false} EditingIsEditingTheHolder(document: Value, tokens: seq<string>, operation: Operation, ints: Indexing)
    requires tokens != []
    ensures var last := tokens[|tokens| - 1];
            var edited := EditUnder(document, tokens, operation, ints);
            && (edited.Some? <==> Holder(document, tokens, ints).Some? && Edit(Holder(document, tokens, ints).value, last, operation, ints).Some?)
            && (edited.Some? ==> Holder(edited.value, tokens, ints) == Edit(Holder(document, tokens, ints).value, last, operation, ints))
    decreases |tokens|
  {
    if |tokens| == 1 {
      assert tokens[..0] == [];
    } else {
      HolderUnder(document, tokens, ints);
      if Child(document, tokens[0], ints).Some? {
        var child := Child(document, tokens[0], ints).value;
        EditingIsEditingTheHolder(child, tokens[1..], operation, ints);
        if EditUnder(child, tokens[1..], operation, ints).Some? {
          var edited := WithChild(document, tokens[0], ints, EditUnder(child, tokens[1..], operation, ints).value);
          EditingUnderAChild(document, tokens, operation, ints);
          ChildOfWithChild(document, tokens[0], ints, EditUnder(child, tokens[1..], operation, ints).value);
          HolderUnder(edited, tokens, ints);
        }
      }
    }
  }

  /** The places part ways above the last container, or at two members of it: no position in a list is counted over. */
  predicate PartWaysForGood(document: Value, tokens: seq<string>, other: seq<string>, ints: Indexing)
    decreases |tokens|
  {
    && tokens != [] && other != []
    && if |tokens| == 1 then document.Obj? && tokens[0] != other[0]
       else NameDifferentChildren(document, tokens[0], other[0], ints)
            || (tokens[0] == other[0] && Child(document, tokens[0], ints).Some?
                && PartWaysForGood(Child(document, tokens[0], ints).value, tokens[1..], other[1..], ints))
  }

  /** No operation, be it an addition or a removal, changes anything at a place that parts ways with it for good. */
  lemma {:induction false} EditingTouchesNothingElse(document: Value, tokens: seq<string>, other: seq<string>, operation: Operation, ints: Indexing)
    requires tokens != [] && PartWaysForGood(document, tokens, other, ints)
    requires EditUnder(document, tokens, operation, ints).Some?
    ensures Resolve(EditUnder(document, tokens, operation, ints).value, other, ints) == Resolve(document, other, ints)
    decreases |tokens|
  {
    if |tokens| > 1 {
      var child := Child(document, tokens[0], ints).value;
      var edited := EditUnder(child, tokens[1..], operation, ints).value;
      if NameDifferentChildren(document, tokens[0], other[0], ints) {
        OtherChildStays(document, tokens[0], other[0], edited, ints);
      } else {
        ChildOfWithChild(document, tokens[0], ints, edited);
        EditingTouchesNothingElse(child, tokens[1..], other[1..], operation, ints);
      }
    }
  }

  function ItemAt(list: Option<Value>, i: int): Option<Value> {
    if list.Some? && list.value.Arr? && 0 <= i < |list.value.items| then Some(list.value.items[i]) else None
  }

  lemma AddingToAListHere(items: seq<Value>, last: string, path: string, value: Value, ints: Indexing, at: nat, j: nat)
    requires last != "-" && ints(last) == Some(at) && at <= |items| && j < |items|
    ensures var added := Edit(Json.Arr(items), last, Adding(path, value), ints);
            added.Some? && ItemAt(added, if j < at then j else j + 1) == Some(items[j])
  {
  }

  lemma RemovingFromAListHere(items: seq<Value>, last: string, path: string, ints: Indexing, at: nat, j: nat)
    requires last != "-" && ints(last) == Some(at) && j < |items|
    ensures var removed := Edit(Json.Arr(items), last, Removing(path), ints);
            && (removed.Some? <==> at < |items|)
            && (removed.Some? && j != at ==> ItemAt(removed, if j < at then j else j - 1) == Some(items[j]))
  {
  }

  /** In a list an addition moves what stands at or behind its position one on, a removal what stands behind it one back. */
  lemma EditingAListShiftsIt(document: Value, tokens: seq<string>, path: string, value: Value, ints: Indexing, at: nat, j: nat)
    requires tokens != [] && Holder(document, tokens, ints).Some?
    requires var holder, last := Holder(document, tokens, ints).value, tokens[|tokens| - 1];
             holder.Arr? && last != "-" && ints(last) == Some(at) && at <= |holder.items| && j < |holder.items|
    ensures var items := Holder(document, tokens, ints).value.items;
            var added := EditUnder(document, tokens, Adding(path, value), ints);
            added.Some? && ItemAt(Holder(added.value, tokens, ints), if j < at then j else j + 1) == Some(items[j])
    ensures var items := Holder(document, tokens, ints).value.items;
            var removed := EditUnder(document, tokens, Removing(path), ints);
            && (removed.Some? <==> at < |items|)
            && (removed.Some? && j != at ==> ItemAt(Holder(removed.value, tokens, ints), if j < at then j else j - 1) == Some(items[j]))
  {
    var items, last := Holder(document, tokens, ints).value.items, tokens[|tokens| - 1];
    EditingIsEditingTheHolder(document, tokens, Adding(path, value), ints);
    AddingToAListHere(items, last, path, value, ints, at, j);
    EditingIsEditingTheHolder(document, tokens, Removing(path), ints);
    RemovingFromAListHere(items, last, path, ints, at, j);
  }

  // ----- What can be printed stays printable -----

  ghost predicate EveryCanBePrinted(memo: Memo, isExact: real -> bool) {
    forall path | path in memo :: CanBePrinted(memo[path], isExact)
  }

  ghost predicate OperationCanBePrinted(operation: Operation, isExact: real -> bool) {
    operation.value.Some? ==> CanBePrinted(operation.value.value, isExact)
  }

  lemma ChildCanBePrinted(container: Value, token: string, ints: Indexing, isExact: real -> bool)
    requires CanBePrinted(container, isExact) && Child(container, token, ints).Some?
    ensures CanBePrinted(Child(container, token, ints).value, isExact)
  {
    if container.Arr? {
      var at := ListPosition(ints(token).value, |container.items|).value;
      assert container.items[at] in container.items;
    }
  }

  lemma WithChildCanBePrinted(container: Value, token: string, ints: Indexing, child: Value, isExact: real -> bool)
    requires CanBePrinted(container, isExact) && CanBePrinted(child, isExact)
    ensures CanBePrinted(WithChild(container, token, ints, child), isExact)
  {
  }

  lemma EditedCanBePrinted(parent: Value, last: string, operation: Operation, ints: Indexing, isExact: real -> bool)
    requires CanBePrinted(parent, isExact) && OperationCanBePrinted(operation, isExact) && Edit(parent, last, operation, ints).Some?
    ensures CanBePrinted(Edit(parent, last, operation, ints).value, isExact)
  {
    var edited := Edit(parent, last, operation, ints).value;
    if parent.Arr? {
      forall item | item in edited.items ensures CanBePrinted(item, isExact) {
        assert item in parent.items || (operation.value.Some? && item == operation.value.value);
      }
    }
  }

  lemma {:induction false} EditedUnderCanBePrinted(document: Value, tokens: seq<string>, operation: Operation, ints: Indexing, isExact: real -> bool)
    requires tokens != [] && CanBePrinted(document, isExact) && OperationCanBePrinted(operation, isExact)
    requires EditUnder(document, tokens, operation, ints).Some?
    ensures CanBePrinted(EditUnder(document, tokens, operation, ints).value, isExact)
    decreases |tokens|
  {
    if |tokens| == 1 {
      EditedCanBePrinted(document, tokens[0], operation, ints, isExact);
    } else {
      var child := Child(document, tokens[0], ints).value;
      ChildCanBePrinted(document, tokens[0], ints, isExact);
      EditedUnderCanBePrinted(child, tokens[1..], operation, ints, isExact);
      WithChildCanBePrinted(document, tokens[0], ints, EditUnder(child, tokens[1..], operation, ints).value, isExact);
    }
  }

  lemma {:induction false} PatchedCanBePrinted(document: Value, operations: seq<Operation>, ints: Indexing, isExact: real -> bool)
    requires CanBePrinted(document, isExact) && ApplyPatch(document, operations, ints).Some?
    requires forall operation | operation in operations :: OperationCanBePrinted(operation, isExact)
    ensures CanBePrinted(ApplyPatch(document, operations, ints).value, isExact)
  {
    if operations != [] {
      var before, last := operations[..|operations| - 1], operations[|operations| - 1];
      PatchedCanBePrinted(document, before, ints, isExact);
      assert last in operations;
      if PointerTokens(last.path) != [] {
        EditedUnderCanBePrinted(ApplyPatch(document, before, ints).value, PointerTokens(last.path), last, ints, isExact);
      }
    }
  }

  lemma {:induction false} ReadOperationsCanBePrinted(items: seq<Value>, isExact: real -> bool)
    requires OperationsOf(items).Some? && forall item | item in items :: CanBePrinted(item, isExact)
    ensures forall operation | operation in OperationsOf(items).value :: OperationCanBePrinted(operation, isExact)
  {
    if items != [] {
      var before, last := items[..|items| - 1], items[|items| - 1];
      ReadOperationsCanBePrinted(before, isExact);
      assert last in items;
    }
  }

  lemma ExpandedCanBePrinted(message: map<string, Value>, memo: Memo, ints: Indexing, isExact: real -> bool)
    requires CanBePrinted(Json.Obj(message), isExact) && EveryCanBePrinted(memo, isExact)
    ensures EveryCanBePrinted(MemoAfter(memo, EffectOf(message, memo, ints)), isExact)
    ensures EffectOf(message, memo, ints).Expand? ==>
            CanBePrinted(FullPatch(message, EffectOf(message, memo, ints).path, EffectOf(message, memo, ints).value), isExact)
  {
    var effect := EffectOf(message, memo, ints);
    if effect.Expand? {
      var items := Json.ItemsOf(Json.Member(Json.Obj(message), "ops"));
      ReadOperationsCanBePrinted(items, isExact);
      PatchedCanBePrinted(memo[effect.path], OperationsOf(items).value, ints, isExact);
    }
  }

  /** Whatever a log holds, the memo holds only what can be printed. */
  lemma MemoCanBePrinted(content: string, memo: Memo, texts: JsonText, ints: Indexing)
    requires texts.IsFaithful() && EveryCanBePrinted(memo, texts.isExact)
    ensures EveryCanBePrinted(MemoAfter(memo, EffectOfLine(content, memo, texts, ints)), texts.isExact)
  {
    if MessageOf(content, texts).Some? {
      var n := PrefixLength(content).value;
      assert texts.loads(content[n..]) == Some(Json.Obj(MessageOf(content, texts).value));
      ExpandedCanBePrinted(MessageOf(content, texts).value, memo, ints, texts.isExact);
    }
  }

  // ----- Logs -----

  lemma {:induction false} SameFirstWhere(a: string, b: string, start: nat, stop: char -> bool, n: nat)
    requires start <= n <= |a| && n <= |b| && a[..n] == b[..n] && FirstWhere(a, start, stop) < n
    ensures FirstWhere(b, start, stop) == FirstWhere(a, start, stop)
    decreases n - start
  {
    assert a[start] == a[..n][start] == b[..n][start] == b[start];
    if !stop(a[start]) {
      SameFirstWhere(a, b, start + 1, stop, n);
    }
  }

  /** The prefix of a line stays its prefix when what follows it is exchanged. */
  lemma PrefixStays(content: string, payload: string)
    requires PrefixLength(content).Some? && '\n' !in payload
    ensures PrefixLength(content[..PrefixLength(content).value] + payload) == PrefixLength(content)
  {
    var n := PrefixLength(content).value;
    var line := content[..n] + payload;
    assert line[..n] == content[..n];
    var space := FirstWhere(content, 0, Blank());
    SameFirstWhere(content, line, 0, Blank(), n);
    SameFirstWhere(content, line, space + 2, ClosingBracket(), n);
    assert line[space] == line[..n][space] && line[space + 1] == line[..n][space + 1] && line[n - 1] == line[..n][n - 1];
    assert line[n..] == payload;
  }

  lemma EffectOfAFullPatch(message: map<string, Value>, path: string, value: Value, memo: Memo, ints: Indexing)
    ensures EffectOf(FullPatch(message, path, value).fields, memo, ints) == Remember(path, value)
  {
    var full := FullPatch(message, path, value).fields;
    assert full["type"] == Json.Str("patch") && full["path"] == Json.Str(path) && full["value"] == value;
    assert Json.Str("patch") != Json.Str("snapshot");
  }

  /** An expanded line does in the next pass what its differential line did in this one. */
  lemma ExpandedLineRemembers(content: string, memo: Memo, texts: JsonText, ints: Indexing)
    requires texts.IsFaithful() && EveryCanBePrinted(memo, texts.isExact) && EffectOfLine(content, memo, texts, ints).Expand?
    ensures var effect := EffectOfLine(content, memo, texts, ints);
            EffectOfLine(LineAfter(content, effect, texts), memo, texts, ints) == Remember(effect.path, effect.value)
  {
    var effect := EffectOfLine(content, memo, texts, ints);
    var n, message := PrefixLength(content).value, MessageOf(content, texts).value;
    var full := FullPatch(message, effect.path, effect.value);
    var payload := texts.dumps(full);
    assert texts.loads(content[n..]) == Some(Json.Obj(message));
    ExpandedCanBePrinted(message, memo, ints, texts.isExact);
    assert texts.loads(payload) == Some(full) && '\n' !in payload;
    PrefixStays(content, payload);
    assert (content[..n] + payload)[n..] == payload;
    EffectOfAFullPatch(message, effect.path, effect.value, memo, ints);
  }

  /** In the next pass a line does to the memo what it did in this one, and is left as it is. */
  lemma LineIsDoneInOnePass(content: string, memo: Memo, texts: JsonText, ints: Indexing)
    requires texts.IsFaithful() && EveryCanBePrinted(memo, texts.isExact) && EffectOfLine(content, memo, texts, ints) != Raise
    ensures var effect := EffectOfLine(content, memo, texts, ints);
            var line := LineAfter(content, effect, texts);
            var again := EffectOfLine(line, memo, texts, ints);
            && again != Raise && !again.Expand?
            && MemoAfter(memo, again) == MemoAfter(memo, effect) && LineAfter(line, again, texts) == line
  {
    if EffectOfLine(content, memo, texts, ints).Expand? {
      ExpandedLineRemembers(content, memo, texts, ints);
    }
  }

  /**
    Expanding an expanded log changes nothing: the second pass remembers the same after every line, so replaying
    either log line by line means the same.
  */
  lemma {:induction false} ExpandingTwiceIsExpandingOnce(lines: seq<string>, texts: JsonText, ints: Indexing)
    requires texts.IsFaithful() && ExpandAll(lines, texts, ints).Some?
    ensures var pass := ExpandAll(lines, texts, ints).value;
            |pass.lines| == |lines| && ExpandAll(pass.lines, texts, ints) == Some(pass) && EveryCanBePrinted(pass.memo, texts.isExact)
  {
    if lines != [] {
      var n := |lines| - 1;
      ExpandingTwiceIsExpandingOnce(lines[..n], texts, ints);
      var before, after := ExpandAll(lines[..n], texts, ints).value, ExpandAll(lines, texts, ints).value;
      LineIsDoneInOnePass(lines[n], before.memo, texts, ints);
      MemoCanBePrinted(lines[n], before.memo, texts, ints);
      assert after.lines[..n] == before.lines;
    }
  }

  /** The passes agree line by line, not only at the end. */
  lemma {:induction false} PassesAgreeLineByLine(lines: seq<string>, texts: JsonText, ints: Indexing, i: nat)
    requires texts.IsFaithful() && i <= |lines| && ExpandAll(lines, texts, ints).Some?
    ensures var written := ExpandAll(lines, texts, ints).value.lines;
            && i <= |written| && ExpandAll(lines[..i], texts, ints).Some? && ExpandAll(written[..i], texts, ints).Some?
            && ExpandAll(lines[..i], texts, ints).value.memo == ExpandAll(written[..i], texts, ints).value.memo
  {
    PrefixOfAPass(lines, texts, ints, i);
    ExpandingTwiceIsExpandingOnce(lines[..i], texts, ints);
  }

  lemma {:induction false} PrefixOfAPass(lines: seq<string>, texts: JsonText, ints: Indexing, i: nat)
    requires i <= |lines| && ExpandAll(lines, texts, ints).Some?
    ensures var written := ExpandAll(lines, texts, ints).value.lines;
            && |written| == |lines| && ExpandAll(lines[..i], texts, ints).Some?
            && ExpandAll(lines[..i], texts, ints).value.lines == written[..i]
  {
    if i == |lines| {
      assert lines[..i] == lines;
      PassKeepsTheLength(lines, texts, ints);
    } else {
      var n := |lines| - 1;
      PrefixOfAPass(lines[..n], texts, ints, i);
      assert lines[..n][..i] == lines[..i];
      assert ExpandAll(lines, texts, ints).value.lines[..i] == ExpandAll(lines[..n], texts, ints).value.lines[..i];
    }
  }

  lemma {:induction false} PassKeepsTheLength(lines: seq<string>, texts: JsonText, ints: Indexing)
    requires ExpandAll(lines, texts, ints).Some?
    ensures |ExpandAll(lines, texts, ints).value.lines| == |lines|
  {
    if lines != [] {
      PassKeepsTheLength(lines[..|lines| - 1], texts, ints);
    }
  }
}
