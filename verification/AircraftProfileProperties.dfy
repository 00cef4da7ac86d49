/** A refueling entry that is written is read back, and nothing else of the profile changes. */
module AircraftProfileProperties {
  import opened Options
  import Json
  import opened Texts
  import opened AircraftProfile

  // ----- The entry's line -----

  predicate IsPlain(c: char) {
    IsDigit(c) || c == '-'
  }

  lemma IntegerTextHasNoBlanks(n: int)
    ensures IntegerText(n) != "" && forall c | c in IntegerText(n) :: IsPlain(c)
  {
    DecimalIsRead(if n < 0 then -n else n);
  }

  lemma TrimKeeps(text: string)
    requires text != "" && !IsBlank(text[0]) && !IsBlank(text[|text| - 1])
    ensures Trim(text) == text && Trim(" " + text) == text && Trim(text + " ") == text
  {
    assert (" " + text)[1..] == text && (text + " ")[..|text|] == text;
  }

  lemma EqualsOfTheLine(value: int)
    ensures var line := RefuelingLine(value);
            Find(line, '=', 0) == 10 && line[..10] == REFUELING_KEY + " " && line[11..] == " " + IntegerText(value)
  {
    var line := RefuelingLine(value);
    assert line == "refueling =" + (" " + IntegerText(value));
    assert line[..10] == "refueling " && line[10] == '=';
    assert forall j | 0 <= j < 10 :: line[j] == line[..10][j] != '=';
  }

  lemma LowerKeepsTheKey()
    ensures ToLower(REFUELING_KEY) == REFUELING_KEY && ToLower(AIRCRAFT_SECTION) == AIRCRAFT_SECTION
  {
  }

  predicate IsCleanLine(line: string) {
    line != "" && forall c | c in line :: c != '\n' && c != '\r'
  }

  lemma RefuelingLineIsClean(value: int)
    ensures IsCleanLine(RefuelingLine(value))
    ensures RefuelingLine(value)[0] == 'r' && IsPlain(RefuelingLine(value)[|RefuelingLine(value)| - 1])
  {
    IntegerTextHasNoBlanks(value);
    var line, text := RefuelingLine(value), IntegerText(value);
    assert line == "refueling = " + text;
    assert line[|line| - 1] == text[|text| - 1] && text[|text| - 1] in text;
    forall c | c in line ensures c != '\n' && c != '\r' {
      assert c in "refueling = " || c in text;
    }
  }

  /** The line that is written is an entry, and says the value. */
  lemma RefuelingLineIsRead(value: int)
    requires Json.IsInt32(value)
    ensures var line := RefuelingLine(value);
            Trim(line) == line && SectionName(line).None? && IsRefuelingLine(line) && ValueOf(line) == Some(value)
  {
    var line, text := RefuelingLine(value), IntegerText(value);
    RefuelingLineIsClean(value);
    IntegerTextHasNoBlanks(value);
    assert IsPlain(text[0]) && IsPlain(text[|text| - 1]);
    TrimKeeps(line);
    TrimKeeps(text);
    TrimKeeps(REFUELING_KEY);
    LowerKeepsTheKey();
    EqualsOfTheLine(value);
    IntegerRoundTrip(value);
  }

  // ----- Endings -----

  predicate IsEnding(ending: string) {
    ending == "" || ending == "\n" || ending == "\r" || ending == "\r\n"
  }

  lemma EndingIsAnEnding(piece: string)
    ensures IsEnding(EndingOf(piece)) && piece == LineOf(piece) + EndingOf(piece)
    ensures EndsInNewline(piece) <==> EndsInNewline(EndingOf(piece))
  {
  }

  /** A clean line with an ending is a piece that says the line. */
  lemma LineWithEnding(line: string, ending: string)
    requires IsCleanLine(line) && IsEnding(ending)
    ensures LineOf(line + ending) == line && EndingOf(line + ending) == ending && HasNoNewlineInside(line + ending)
    ensures EndsInNewline(line + ending) <==> EndsInNewline(ending)
  {
    var piece := line + ending;
    assert line[|line| - 1] in line;
    assert piece[..|line|] == line;
    if ending == "\r\n" {
      assert piece[..|piece| - 1] == line + "\r" && (line + "\r")[..|line|] == line;
    } else if ending == "" {
      assert piece == line;
    }
    forall i | 0 <= i < |piece| - 1 ensures piece[i] != '\n' {
      assert i < |line| ==> piece[i] in line;
    }
  }

  // ----- Replacing -----

  lemma {:induction false} SectionOfSamePrefix(a: seq<string>, b: seq<string>, n: nat)
    requires n <= |a| && n <= |b| && a[..n] == b[..n]
    ensures SectionBefore(a, n) == SectionBefore(b, n)
  {
    if n > 0 {
      assert a[n - 1] == a[..n][n - 1] == b[..n][n - 1] == b[n - 1];
      assert a[..n - 1] == a[..n][..n - 1] == b[..n][..n - 1] == b[..n - 1];
      SectionOfSamePrefix(a, b, n - 1);
    }
  }

  /** Whether a piece is an entry depends on the pieces up to it alone. */
  lemma EntryStays(a: seq<string>, b: seq<string>, n: nat, j: nat)
    requires j < n <= |a| && n <= |b| && a[..n] == b[..n]
    ensures IsRefuelingAt(a, j) <==> IsRefuelingAt(b, j)
  {
    assert a[j] == a[..n][j] == b[..n][j] == b[j];
    assert a[..j] == a[..n][..j] == b[..n][..j] == b[..j];
    SectionOfSamePrefix(a, b, j);
  }

  /** The pieces that stay hold no entry when they held none. */
  lemma NoEarlierEntry(before: seq<string>, after: seq<string>, i: nat)
    requires i <= |before| && i <= |after| && after[..i] == before[..i] && FirstRefueling(before, 0) >= i
    ensures FirstRefueling(after, 0) >= i
  {
    var j := FirstRefueling(after, 0);
    if j < i {
      EntryStays(after, before, i, j);
    }
  }

  /** The first entry is here when the pieces before it stay, and hold none. */
  lemma FirstEntryIsHere(before: seq<string>, after: seq<string>, i: nat)
    requires i <= |before| && i < |after| && after[..i] == before[..i] && FirstRefueling(before, 0) >= i
    requires IsRefuelingAt(after, i)
    ensures FirstRefueling(after, 0) == i
  {
    NoEarlierEntry(before, after, i);
  }

  /** The written line is an entry wherever the aircraft section is open. */
  lemma WrittenLineIsAnEntry(pieces: seq<string>, i: nat, value: int, ending: string)
    requires i < |pieces| && pieces[i] == RefuelingLine(value) + ending && IsEnding(ending) && Json.IsInt32(value)
    requires SectionBefore(pieces, i) == AIRCRAFT_SECTION
    ensures IsRefuelingAt(pieces, i) && ValueOf(Trim(LineOf(pieces[i]))) == Some(value)
    ensures pieces[i := RefuelingLine(value) + EndingOf(pieces[i])] == pieces
    ensures HasNoNewlineInside(pieces[i]) && (EndsInNewline(pieces[i]) <==> EndsInNewline(ending))
  {
    RefuelingLineIsClean(value);
    RefuelingLineIsRead(value);
    LineWithEnding(RefuelingLine(value), ending);
  }

  lemma ReplacedIsRead(pieces: seq<string>, value: int)
    requires ArePieces(pieces) && Json.IsInt32(value) && FirstRefueling(pieces, 0) < |pieces|
    ensures var i := FirstRefueling(pieces, 0);
            var after := pieces[i := RefuelingLine(value) + EndingOf(pieces[i])];
            && ArePieces(after) && FirstRefueling(after, 0) == i && ReadPieces(after) == Some(value)
            && after[i := RefuelingLine(value) + EndingOf(after[i])] == after
  {
    var i := FirstRefueling(pieces, 0);
    var after := pieces[i := RefuelingLine(value) + EndingOf(pieces[i])];
    EndingIsAnEnding(pieces[i]);
    assert after[..i] == pieces[..i];
    SectionOfSamePrefix(after, pieces, i);
    WrittenLineIsAnEntry(after, i, value, EndingOf(pieces[i]));
    FirstEntryIsHere(pieces, after, i);
  }

  // ----- Inserting -----

  function WithEntry(pieces: seq<string>, h: nat, entry: string): seq<string>
    requires h <= |pieces|
  {
    pieces[..h] + [entry] + pieces[h..]
  }

  lemma SectionBehindItsHeader(pieces: seq<string>, h: nat)
    requires 0 < h <= |pieces| && IsAircraftHeader(pieces[h - 1])
    ensures SectionBefore(pieces, h) == AIRCRAFT_SECTION
  {
  }

  lemma InsertedAt(pieces: seq<string>, h: nat, value: int, eol: string)
    requires ArePieces(pieces) && Json.IsInt32(value) && (eol == "\n" || eol == "\r\n")
    requires FirstRefueling(pieces, 0) == |pieces|
    requires 0 < h <= |pieces| && IsAircraftHeader(pieces[h - 1]) && EndsInNewline(pieces[h - 1])
    ensures var after := WithEntry(pieces, h, RefuelingLine(value) + eol);
            && ArePieces(after) && FirstRefueling(after, 0) == h && ReadPieces(after) == Some(value)
            && after[h := RefuelingLine(value) + EndingOf(after[h])] == after
  {
    var entry := RefuelingLine(value) + eol;
    var after := WithEntry(pieces, h, entry);
    EntryIsInPlace(pieces, h, entry);
    SectionBehindItsHeader(after, h);
    WrittenLineIsAnEntry(after, h, value, eol);
    FirstEntryIsHere(pieces, after, h);
    InsertedPiecesArePieces(pieces, h, entry);
    FirstIsRead(after, h);
  }

  lemma EntryIsInPlace(pieces: seq<string>, h: nat, entry: string)
    requires 0 < h <= |pieces|
    ensures var after := WithEntry(pieces, h, entry);
            |after| == |pieces| + 1 && after[h] == entry && after[h - 1] == pieces[h - 1] && after[..h] == pieces[..h]
  {
  }

  lemma FirstIsRead(pieces: seq<string>, i: nat)
    requires FirstRefueling(pieces, 0) == i < |pieces|
    ensures ReadPieces(pieces) == ValueOf(Trim(LineOf(pieces[i])))
  {
  }

  lemma InsertedPiecesArePieces(pieces: seq<string>, h: nat, entry: string)
    requires ArePieces(pieces) && 0 < h <= |pieces| && EndsInNewline(pieces[h - 1])
    requires HasNoNewlineInside(entry) && EndsInNewline(entry)
    ensures ArePieces(WithEntry(pieces, h, entry))
  {
    var after := WithEntry(pieces, h, entry);
    assert forall i | 0 <= i < |after| :: after[i] == if i < h then pieces[i] else if i == h then entry else pieces[i - 1];
  }

  // ----- A header that ends the text -----

  lemma {:induction false} TrimFrontIsASuffix(text: string)
    ensures |TrimFront(text)| <= |text| && TrimFront(text) == text[|text| - |TrimFront(text)|..]
    ensures TrimFront(text) != "" ==> !IsBlank(TrimFront(text)[0])
    ensures forall i | 0 <= i < |text| - |TrimFront(text)| :: IsBlank(text[i])
  {
    if text != "" && IsBlank(text[0]) {
      TrimFrontIsASuffix(text[1..]);
      assert forall i | 0 < i < |text| :: text[1..][i - 1] == text[i];
    }
  }

  lemma {:induction false} TrimBackIsAPrefix(text: string)
    ensures |TrimBack(text)| <= |text| && TrimBack(text) == text[..|TrimBack(text)|]
    ensures text != "" && !IsBlank(text[0]) ==> TrimBack(text) != "" && TrimBack(text)[0] == text[0]
  {
    if text != "" && IsBlank(text[|text| - 1]) {
      TrimBackIsAPrefix(text[..|text| - 1]);
    }
  }

  predicate StartsWithABracket(text: string) {
    text != "" && text[0] == '['
  }

  /** The first letter that is no blank is a bracket, whatever follows it. */
  lemma {:induction false} TrimFrontOfMore(text: string, more: string)
    requires StartsWithABracket(TrimFront(text))
    ensures TrimFront(text + more) == TrimFront(text) + more
  {
    if IsBlank(text[0]) {
      assert (text + more)[1..] == text[1..] + more;
      TrimFrontOfMore(text[1..], more);
    }
  }

  lemma BracketIsNoEntry(trimmed: string)
    requires StartsWithABracket(trimmed)
    ensures !IsRefuelingLine(trimmed)
  {
    var equals := Find(trimmed, '=', 0);
    if 0 < equals < |trimmed| {
      var key := trimmed[..equals];
      assert key[0] == '[' && TrimFront(key) == key;
      TrimBackIsAPrefix(key);
      assert ToLower(Trim(key))[0] == '[';
    }
  }

  /** A line glued to a header is neither a header nor an entry. */
  lemma GluedIsNoEntry(piece: string, line: string)
    requires StartsWithABracket(Trim(LineOf(piece))) && !EndsInNewline(piece)
    requires line != "" && IsPlain(line[|line| - 1])
    ensures SectionName(Trim(piece + line)).None? && !IsRefuelingLine(Trim(piece + line))
  {
    EndingIsAnEnding(piece);
    TrimFrontIsASuffix(LineOf(piece));
    TrimBackIsAPrefix(TrimFront(LineOf(piece)));
    assert StartsWithABracket(TrimFront(LineOf(piece)));
    var more := EndingOf(piece) + line;
    assert piece + line == LineOf(piece) + more;
    TrimFrontOfMore(LineOf(piece), more);
    var front := TrimFront(LineOf(piece)) + more;
    assert front[|front| - 1] == line[|line| - 1];
    assert Trim(piece + line) == front;
    BracketIsNoEntry(front);
  }

  lemma HeaderStartsWithABracket(piece: string)
    requires IsAircraftHeader(piece)
    ensures StartsWithABracket(Trim(LineOf(piece)))
  {
  }

  /** The text of the last header and the entry behind it, when the header's line is not ended. */
  function Glued(pieces: seq<string>, entry: string): seq<string>
    requires pieces != []
  {
    pieces[..|pieces| - 1] + [pieces[|pieces| - 1] + entry]
  }

  lemma GluedPiecesArePieces(pieces: seq<string>, last: string)
    requires ArePieces(pieces) && pieces != [] && HasNoNewlineInside(last)
    ensures ArePieces(pieces[..|pieces| - 1] + [last])
  {
  }

  lemma GluedPieceIsNoEntry(last: string, value: int, eol: string)
    requires IsAircraftHeader(last) && HasNoNewlineInside(last) && !EndsInNewline(last) && (eol == "\n" || eol == "\r\n")
    ensures var glued := last + (RefuelingLine(value) + eol);
            HasNoNewlineInside(glued) && !IsRefuelingLine(Trim(LineOf(glued)))
  {
    var line := RefuelingLine(value);
    RefuelingLineIsClean(value);
    assert last + (line + eol) == last + line + eol;
    GluedIsOneLine(last, line, eol);
    HeaderStartsWithABracket(last);
    GluedIsNoEntry(last, line);
  }

  lemma NotAnEntry(pieces: seq<string>, i: nat)
    requires i < |pieces| && !IsRefuelingLine(Trim(LineOf(pieces[i])))
    ensures !IsRefuelingAt(pieces, i)
  {
  }

  lemma GluedIsNotRead(pieces: seq<string>, value: int, eol: string)
    requires ArePieces(pieces) && (eol == "\n" || eol == "\r\n") && FirstRefueling(pieces, 0) == |pieces| > 0
    requires IsAircraftHeader(pieces[|pieces| - 1]) && !EndsInNewline(pieces[|pieces| - 1])
    ensures var after := Glued(pieces, RefuelingLine(value) + eol); ArePieces(after) && ReadPieces(after) == None
  {
    var n := |pieces| - 1;
    var after := Glued(pieces, RefuelingLine(value) + eol);
    GluedPieceIsNoEntry(pieces[n], value, eol);
    GluedPiecesArePieces(pieces, after[n]);
    NotAnEntry(after, n);
    assert after[..n] == pieces[..n];
    NoEntryStays(pieces, after, n);
    NoEntryNoValue(after);
  }

  lemma NoEntryStays(before: seq<string>, after: seq<string>, n: nat)
    requires |before| == |after| == n + 1 && before[..n] == after[..n]
    requires FirstRefueling(before, 0) == |before| && !IsRefuelingAt(after, n)
    ensures FirstRefueling(after, 0) == |after|
  {
    NoEarlierEntry(before, after, n);
    assert FirstRefueling(after, 0) != n;
  }

  lemma NoEntryNoValue(pieces: seq<string>)
    requires FirstRefueling(pieces, 0) == |pieces|
    ensures ReadPieces(pieces) == None
  {
  }

  lemma GluedIsOneLine(last: string, line: string, eol: string)
    requires HasNoNewlineInside(last) && !EndsInNewline(last) && IsCleanLine(line) && (eol == "\n" || eol == "\r\n")
    ensures LineOf(last + line + eol) == last + line && HasNoNewlineInside(last + line + eol)
  {
    var text := last + line;
    var piece := text + eol;
    assert text[|text| - 1] == line[|line| - 1] && line[|line| - 1] in line;
    assert piece[..|text|] == text;
    if eol == "\r\n" {
      assert piece[..|piece| - 1] == text + "\r" && (text + "\r")[..|text|] == text;
    }
    forall i | 0 <= i < |piece| - 1 ensures piece[i] != '\n' {
      if |last| <= i < |text| {
        assert piece[i] == line[i - |last|] && line[i - |last|] in line;
      }
    }
  }

  // ----- Texts -----

  /** The text has an entry already, or the line of its last aircraft header is ended. */
  predicate CanTakeTheEntry(content: string) {
    var pieces := Pieces(content);
    var h := AfterLastHeader(pieces, |pieces|);
    FirstRefueling(pieces, 0) < |pieces| || (h > 0 && EndsInNewline(pieces[h - 1]))
  }

  /** What a write makes of the pieces of a text. */
  function PiecesAfter(pieces: seq<string>, entry: string, line: string): seq<string>
    requires FirstRefueling(pieces, 0) < |pieces| || AfterLastHeader(pieces, |pieces|) > 0
  {
    var i := FirstRefueling(pieces, 0);
    var h := AfterLastHeader(pieces, |pieces|);
    if i < |pieces| then pieces[i := line + EndingOf(pieces[i])]
    else if EndsInNewline(pieces[h - 1]) then WithEntry(pieces, h, entry)
    else Glued(pieces, entry)
  }

  /** A write succeeds exactly when there is an entry or a header of the aircraft section. */
  lemma WriteNeedsTheSection(content: string, value: int)
    ensures WriteText(content, value).Some?
            <==> (exists i: nat :: IsRefuelingAt(Pieces(content), i)) || (exists i: nat :: IsHeaderAt(Pieces(content), i))
  {
    var pieces := Pieces(content);
    var h := AfterLastHeader(pieces, |pieces|);
    assert h > 0 ==> IsHeaderAt(pieces, h - 1);
  }

  predicate IsHeaderAt(pieces: seq<string>, i: nat) {
    i < |pieces| && IsAircraftHeader(pieces[i])
  }

  lemma EolIsAnEol(content: string)
    ensures EolOf(content) == "\n" || EolOf(content) == "\r\n"
  {
  }

  lemma GluedConcat(pieces: seq<string>, entry: string)
    requires pieces != []
    ensures Concat(Glued(pieces, entry)) == Concat(pieces + [entry])
  {
    var front, last := pieces[..|pieces| - 1], pieces[|pieces| - 1];
    assert pieces == front + [last];
    ConcatOfThree(front, last + entry, []);
    ConcatOfThree(front, last, [entry]);
    assert front + [last + entry] + [] == Glued(pieces, entry);
    assert Concat([entry]) == entry;
  }

  lemma GluedWrite(pieces: seq<string>, value: int, eol: string)
    requires ArePieces(pieces) && (eol == "\n" || eol == "\r\n") && FirstRefueling(pieces, 0) == |pieces| > 0
    requires IsAircraftHeader(pieces[|pieces| - 1]) && !EndsInNewline(pieces[|pieces| - 1])
    ensures var entry := RefuelingLine(value) + eol;
            Pieces(Concat(pieces[..|pieces|] + [entry] + pieces[|pieces|..])) == Glued(pieces, entry)
  {
    var entry := RefuelingLine(value) + eol;
    assert pieces[..|pieces|] + [entry] + pieces[|pieces|..] == pieces + [entry];
    GluedIsNotRead(pieces, value, eol);
    GluedConcat(pieces, entry);
    PiecesOfConcat(Glued(pieces, entry));
  }

  lemma ReplacedWrite(content: string, value: int)
    requires Json.IsInt32(value) && FirstRefueling(Pieces(content), 0) < |Pieces(content)|
    ensures var pieces, i := Pieces(content), FirstRefueling(Pieces(content), 0);
            && WriteText(content, value).Some?
            && Pieces(WriteText(content, value).value) == pieces[i := RefuelingLine(value) + EndingOf(pieces[i])]
  {
    var pieces, i := Pieces(content), FirstRefueling(Pieces(content), 0);
    WholeText(content);
    ReplacedIsRead(pieces, value);
    PiecesOfConcat(pieces[i := RefuelingLine(value) + EndingOf(pieces[i])]);
  }

  lemma InsertedWrite(content: string, value: int)
    requires var pieces := Pieces(content);
             FirstRefueling(pieces, 0) == |pieces| && AfterLastHeader(pieces, |pieces|) > 0
    ensures var pieces := Pieces(content);
            WriteText(content, value)
            == Some(Concat(WithEntry(pieces, AfterLastHeader(pieces, |pieces|), RefuelingLine(value) + EolOf(content))))
  {
  }

  lemma InsertedPieces(content: string, value: int)
    requires Json.IsInt32(value)
    requires var pieces := Pieces(content);
             var h := AfterLastHeader(pieces, |pieces|);
             FirstRefueling(pieces, 0) == |pieces| && h > 0 && EndsInNewline(pieces[h - 1])
    ensures var pieces := Pieces(content);
            var after := WithEntry(pieces, AfterLastHeader(pieces, |pieces|), RefuelingLine(value) + EolOf(content));
            Pieces(Concat(after)) == after
  {
    WholeText(content);
    EolIsAnEol(content);
    var pieces := Pieces(content);
    InsertedAt(pieces, AfterLastHeader(pieces, |pieces|), value, EolOf(content));
    PiecesOfConcat(WithEntry(pieces, AfterLastHeader(pieces, |pieces|), RefuelingLine(value) + EolOf(content)));
  }

  lemma GluedPieces(content: string, value: int)
    requires var pieces := Pieces(content);
             var h := AfterLastHeader(pieces, |pieces|);
             FirstRefueling(pieces, 0) == |pieces| && h > 0 && !EndsInNewline(pieces[h - 1])
    ensures var pieces, entry := Pieces(content), RefuelingLine(value) + EolOf(content);
            AfterLastHeader(pieces, |pieces|) == |pieces| && Pieces(Concat(WithEntry(pieces, |pieces|, entry))) == Glued(pieces, entry)
  {
    WholeText(content);
    EolIsAnEol(content);
    GluedWrite(Pieces(content), value, EolOf(content));
  }

  /**
    A write changes one line, or adds one behind the last header of the aircraft section: every other line of
    the text stays as it is.  A header that ends the text without a newline is the exception: the entry is
    glued to it.
  */
  lemma OnlyTheEntryChanges(content: string, value: int)
    requires Json.IsInt32(value) && WriteText(content, value).Some?
    ensures Pieces(WriteText(content, value).value)
            == PiecesAfter(Pieces(content), RefuelingLine(value) + EolOf(content), RefuelingLine(value))
  {
    var pieces := Pieces(content);
    if FirstRefueling(pieces, 0) < |pieces| {
      ReplacedWrite(content, value);
    } else {
      InsertedWrite(content, value);
      if EndsInNewline(pieces[AfterLastHeader(pieces, |pieces|) - 1]) {
        InsertedPieces(content, value);
      } else {
        GluedPieces(content, value);
      }
    }
  }

  /** The value that was written is read back exactly when the text could take the entry; otherwise nothing is read. */
  lemma WrittenIsReadBack(content: string, value: int)
    requires Json.IsInt32(value) && WriteText(content, value).Some?
    ensures ReadText(WriteText(content, value).value) == if CanTakeTheEntry(content) then Some(value) else None
  {
    var pieces := Pieces(content);
    WholeText(content);
    EolIsAnEol(content);
    OnlyTheEntryChanges(content, value);
    if FirstRefueling(pieces, 0) < |pieces| {
      ReplacedIsRead(pieces, value);
    } else if EndsInNewline(pieces[AfterLastHeader(pieces, |pieces|) - 1]) {
      InsertedAt(pieces, AfterLastHeader(pieces, |pieces|), value, EolOf(content));
    } else {
      GluedIsNotRead(pieces, value, EolOf(content));
    }
  }

  /** Writing the same value again changes nothing. */
  lemma WritingAgainChangesNothing(content: string, value: int)
    requires Json.IsInt32(value) && WriteText(content, value).Some? && CanTakeTheEntry(content)
    ensures WriteText(WriteText(content, value).value, value) == WriteText(content, value)
  {
    var pieces := Pieces(content);
    var written := WriteText(content, value).value;
    WholeText(content);
    WholeText(written);
    EolIsAnEol(content);
    OnlyTheEntryChanges(content, value);
    if FirstRefueling(pieces, 0) < |pieces| {
      ReplacedIsRead(pieces, value);
    } else {
      InsertedAt(pieces, AfterLastHeader(pieces, |pieces|), value, EolOf(content));
    }
  }

  const BARE_HEADER := "[aircraft]"

  lemma BareHeaderIsAHeader()
    ensures IsAircraftHeader(BARE_HEADER) && LineOf(BARE_HEADER) == BARE_HEADER && Trim(BARE_HEADER) == BARE_HEADER
  {
    LowerKeepsTheKey();
    TrimKeeps(BARE_HEADER);
    assert BARE_HEADER[1..|BARE_HEADER| - 1] == AIRCRAFT_SECTION;
    TrimKeeps(AIRCRAFT_SECTION);
  }

  lemma BareHeaderIsOnePiece()
    ensures Pieces(BARE_HEADER) == [BARE_HEADER] && !EndsInNewline(BARE_HEADER) && EolOf(BARE_HEADER) == "\n"
  {
    assert Concat([BARE_HEADER]) == BARE_HEADER;
    assert HasNoNewlineInside(BARE_HEADER);
    PiecesOfConcat([BARE_HEADER]);
  }

  lemma BareHeaderHasNoEntry()
    ensures FirstRefueling([BARE_HEADER], 0) == 1 && AfterLastHeader([BARE_HEADER], 1) == 1
  {
    BareHeaderIsAHeader();
    assert !IsRefuelingAt([BARE_HEADER], 0);
  }

  lemma BareHeaderTakesTheEntry(entry: string)
    ensures Concat([BARE_HEADER][..1] + [entry] + [BARE_HEADER][1..]) == BARE_HEADER + entry
  {
    assert [BARE_HEADER][..1] + [entry] + [BARE_HEADER][1..] == [BARE_HEADER] + [entry] + [];
    ConcatOfThree([BARE_HEADER], entry, []);
    assert Concat([BARE_HEADER]) == BARE_HEADER;
  }

  /** So a profile that is nothing but its header loses the entry: it is written, and then not found. */
  lemma HeaderAtTheEndLosesTheEntry(value: int)
    requires Json.IsInt32(value)
    ensures WriteText(BARE_HEADER, value) == Some(BARE_HEADER + (RefuelingLine(value) + "\n"))
    ensures ReadText(BARE_HEADER + (RefuelingLine(value) + "\n")) == None
  {
    BareHeaderIsOnePiece();
    BareHeaderHasNoEntry();
    BareHeaderTakesTheEntry(RefuelingLine(value) + "\n");
    WrittenIsReadBack(BARE_HEADER, value);
  }
}
