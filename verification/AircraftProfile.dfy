/**
  The refueling entry of a GSX aircraft profile, read from and written to INI text (`GsxAircraftProfile.cpp`).
  A text is looked at as its pieces: the lines with whatever ends them.
*/
module AircraftProfile {
  import opened Options
  import opened Json
  import opened Texts

  // ----- Lines -----

  predicate IsBlank(c: char) {
    c == ' ' || c == '\t'
  }

  function TrimFront(text: string): string {
    if text != "" && IsBlank(text[0]) then TrimFront(text[1..]) else text
  }

  function TrimBack(text: string): string {
    if text != "" && IsBlank(text[|text| - 1]) then TrimBack(text[..|text| - 1]) else text
  }

  function Trim(text: string): string {
    TrimBack(TrimFront(text))
  }

  function ToLower(text: string): string {
    seq(|text|, i requires 0 <= i < |text| => Lower(text[i]))
  }

  /** The position of the first such letter from a position on, the length of the text when there is none. */
  function Find(text: string, c: char, start: nat): (i: nat)
    requires start <= |text|
    ensures start <= i <= |text| && (i < |text| ==> text[i] == c)
    ensures forall j | start <= j < i :: text[j] != c
    decreases |text| - start
  {
    if start == |text| || text[start] == c then start else Find(text, c, start + 1)
  }

  const AIRCRAFT_SECTION := "aircraft"
  const REFUELING_KEY := "refueling"

  function SectionName(trimmed: string): Option<string> {
    if |trimmed| < 2 || trimmed[0] != '[' || trimmed[|trimmed| - 1] != ']' then None
    else Some(ToLower(Trim(trimmed[1..|trimmed| - 1])))
  }

  predicate IsRefuelingLine(line: string) {
    var equals := Find(line, '=', 0);
    equals < |line| && ToLower(Trim(line[..equals])) == REFUELING_KEY
  }

  function RefuelingLine(value: int): string {
    REFUELING_KEY + " = " + IntegerText(value)
  }

  /** The number after the equals sign; none when there is no number or it does not fit an int. */
  function ValueOf(line: string): Option<int> {
    var equals := Find(line, '=', 0);
    match LeadingInteger(Trim(line[if equals < |line| then equals + 1 else 0..]))
    case Some(value) => if IsInt32(value) then Some(value) else None
    case None => None
  }

  // ----- Pieces -----

  datatype LineView = LineView(text: string, start: nat, end: nat, next: nat)

  function NextLine(content: string, start: nat): (line: LineView)
    requires start < |content|
    ensures line.start == start <= line.end <= line.next <= |content| && start < line.next
    ensures line.text == content[start..line.end]
  {
    var newline := Find(content, '\n', start);
    var next := if newline == |content| then |content| else newline + 1;
    var end := if newline > start && content[newline - 1] == '\r' then newline - 1 else newline;
    LineView(content[start..end], start, end, next)
  }

  /** A text cut behind every line feed. */
  function PiecesFrom(content: string, start: nat): seq<string>
    requires start <= |content|
    decreases |content| - start
  {
    if start == |content| then []
    else
      var next := NextLine(content, start).next;
      [content[start..next]] + PiecesFrom(content, next)
  }

  function Pieces(content: string): seq<string> {
    PiecesFrom(content, 0)
  }

  function Concat(pieces: seq<string>): string {
    if pieces == [] then "" else pieces[0] + Concat(pieces[1..])
  }

  /** What a piece says, without what ends it. */
  function LineOf(piece: string): string {
    var body := if piece != "" && piece[|piece| - 1] == '\n' then piece[..|piece| - 1] else piece;
    if body != "" && body[|body| - 1] == '\r' then body[..|body| - 1] else body
  }

  function EndingOf(piece: string): string {
    piece[|LineOf(piece)|..]
  }

  predicate EndsInNewline(piece: string) {
    piece != "" && piece[|piece| - 1] == '\n'
  }

  predicate HasNoNewlineInside(piece: string) {
    piece != "" && forall i | 0 <= i < |piece| - 1 :: piece[i] != '\n'
  }

  /** Texts that are the pieces of what they make up: every piece is one line, and only the last may be unended. */
  predicate ArePieces(pieces: seq<string>) {
    && (forall i | 0 <= i < |pieces| :: HasNoNewlineInside(pieces[i]))
    && (forall i | 0 <= i < |pieces| - 1 :: EndsInNewline(pieces[i]))
  }

  // ----- Reading and writing, on pieces -----

  function HeaderAt(piece: string): Option<string> {
    SectionName(Trim(LineOf(piece)))
  }

  /** The section that the pieces before a position leave open. */
  function SectionBefore(pieces: seq<string>, n: nat): string
    requires n <= |pieces|
  {
    if n == 0 then ""
    else
      match HeaderAt(pieces[n - 1])
      case Some(name) => name
      case None => SectionBefore(pieces, n - 1)
  }

  predicate IsRefuelingAt(pieces: seq<string>, i: nat) {
    && i < |pieces| && HeaderAt(pieces[i]).None?
    && SectionBefore(pieces, i) == AIRCRAFT_SECTION && IsRefuelingLine(Trim(LineOf(pieces[i])))
  }

  function FirstRefueling(pieces: seq<string>, start: nat): (i: nat)
    requires start <= |pieces|
    ensures start <= i <= |pieces| && (i < |pieces| ==> IsRefuelingAt(pieces, i))
    ensures forall j | start <= j < i :: !IsRefuelingAt(pieces, j)
    decreases |pieces| - start
  {
    if start == |pieces| || IsRefuelingAt(pieces, start) then start else FirstRefueling(pieces, start + 1)
  }

  predicate IsAircraftHeader(piece: string) {
    HeaderAt(piece) == Some(AIRCRAFT_SECTION)
  }

  /** One past the last of the first n pieces that is of a kind; 0 when there is none. */
  function AfterLast(pieces: seq<string>, n: nat, isOne: string -> bool): (h: nat)
    requires n <= |pieces|
    ensures h <= n && (h > 0 ==> isOne(pieces[h - 1]))
    ensures forall j | h <= j < n :: !isOne(pieces[j])
  {
    if n == 0 then 0 else if isOne(pieces[n - 1]) then n else AfterLast(pieces, n - 1, isOne)
  }

  function AircraftHeader(): string -> bool {
    piece => IsAircraftHeader(piece)
  }

  /** One past the last header of the aircraft section. */
  function AfterLastHeader(pieces: seq<string>, n: nat): (h: nat)
    requires n <= |pieces|
    ensures h <= n && (h > 0 ==> IsAircraftHeader(pieces[h - 1]))
    ensures forall j | h <= j < n :: !IsAircraftHeader(pieces[j])
  {
    var h := AfterLast(pieces, n, AircraftHeader());
    assert forall j | h <= j < n :: !AircraftHeader()(pieces[j]);
    h
  }

  function ReadPieces(pieces: seq<string>): Option<int> {
    var i := FirstRefueling(pieces, 0);
    if i == |pieces| then None else ValueOf(Trim(LineOf(pieces[i])))
  }

  /** The entry replaces the first one there is, or goes straight behind the last header of the aircraft section. */
  function WritePieces(pieces: seq<string>, line: string, eol: string): Option<seq<string>> {
    var i := FirstRefueling(pieces, 0);
    var h := AfterLastHeader(pieces, |pieces|);
    if i < |pieces| then Some(pieces[i := line + EndingOf(pieces[i])])
    else if h == 0 then None
    else Some(pieces[..h] + [line + eol] + pieces[h..])
  }

  predicate HasCrLf(content: string) {
    exists i | 0 <= i < |content| - 1 :: content[i] == '\r' && content[i + 1] == '\n'
  }

  function EolOf(content: string): string {
    if HasCrLf(content) then "\r\n" else "\n"
  }

  function ReadText(content: string): Option<int> {
    ReadPieces(Pieces(content))
  }

  function WriteText(content: string, value: int): Option<string> {
    match WritePieces(Pieces(content), RefuelingLine(value), EolOf(content))
    case Some(pieces) => Some(Concat(pieces))
    case None => None
  }

  // ----- The walk over the lines -----

  lemma {:induction false} ConcatAppends(a: seq<string>, b: seq<string>)
    ensures Concat(a + b) == Concat(a) + Concat(b)
  {
    if a == [] {
      assert a + b == b;
    } else {
      ConcatAppends(a[1..], b);
      assert (a + b)[1..] == a[1..] + b && (a + b)[0] == a[0];
    }
  }

  lemma FirstPieceIsALine(content: string, start: nat)
    requires start < |content|
    ensures var next := NextLine(content, start).next;
            HasNoNewlineInside(content[start..next]) && (next < |content| ==> EndsInNewline(content[start..next]))
  {
    var newline := Find(content, '\n', start);
    var piece := content[start..NextLine(content, start).next];
    assert forall i | 0 <= i < |piece| :: piece[i] == content[start + i];
  }

  lemma OneMorePiece(piece: string, rest: seq<string>)
    requires HasNoNewlineInside(piece) && ArePieces(rest) && (rest != [] ==> EndsInNewline(piece))
    ensures ArePieces([piece] + rest)
  {
  }

  /** The walk from line to line partitions the text: the pieces make up the text, and each is one line. */
  lemma {:induction false} PiecesPartition(content: string, start: nat)
    requires start <= |content|
    ensures Concat(PiecesFrom(content, start)) == content[start..]
    ensures ArePieces(PiecesFrom(content, start))
    decreases |content| - start
  {
    if start < |content| {
      var next := NextLine(content, start).next;
      PiecesPartition(content, next);
      FirstPieceIsALine(content, start);
      OneMorePiece(content[start..next], PiecesFrom(content, next));
      ConcatAppends([content[start..next]], PiecesFrom(content, next));
      assert Concat([content[start..next]]) == content[start..next];
      assert content[start..] == content[start..next] + content[next..];
    }
  }

  /** The line found at the start of a piece says what the piece says. */
  lemma LineIsThePiece(content: string, start: nat)
    requires start < |content|
    ensures var line := NextLine(content, start);
            && LineOf(content[start..line.next]) == line.text
            && EndingOf(content[start..line.next]) == content[line.end..line.next]
  {
    var line := NextLine(content, start);
    var newline := Find(content, '\n', start);
    var piece := content[start..line.next];
    if newline < |content| {
      assert piece[|piece| - 1] == '\n' && piece[..|piece| - 1] == content[start..newline];
    } else {
      assert piece[|piece| - 1] == content[|content| - 1] != '\n';
    }
  }

  /** Texts that look like pieces are the pieces of what they make up. */
  lemma {:induction false} PiecesAreUnique(pieces: seq<string>, before: string)
    requires ArePieces(pieces)
    ensures PiecesFrom(before + Concat(pieces), |before|) == pieces
    decreases |pieces|
  {
    var content := before + Concat(pieces);
    if pieces == [] {
      assert content == before;
    } else {
      var piece, rest := pieces[0], Concat(pieces[1..]);
      var after := before + piece;
      assert content == after + rest;
      assert forall i | 0 <= i < |piece| :: content[|before| + i] == piece[i];
      var newline := Find(content, '\n', |before|);
      if EndsInNewline(piece) {
        assert content[|after| - 1] == '\n' && newline == |after| - 1;
      } else {
        assert |pieces| == 1 && rest == "" && content == after;
        assert piece[|piece| - 1] != '\n';
        assert newline == |content|;
      }
      assert NextLine(content, |before|).next == |after| && content[|before|..|after|] == piece;
      PiecesAreUnique(pieces[1..], after);
    }
  }

  lemma PiecesOfConcat(pieces: seq<string>)
    requires ArePieces(pieces)
    ensures Pieces(Concat(pieces)) == pieces
  {
    PiecesAreUnique(pieces, "");
    assert "" + Concat(pieces) == Concat(pieces);
  }

  // ----- The methods -----

  ghost predicate IsAt(content: string, pieces: seq<string>, k: nat, pos: nat) {
    k <= |pieces| && pos <= |content| && PiecesFrom(content, pos) == pieces[k..]
  }

  method ReadRefueling(content: Option<string>) returns (value: Option<int>)
    ensures value == if content.Some? then ReadText(content.value) else None
  {
    if content.None? {
      return None;
    }
    var text := content.value;
    ghost var pieces := Pieces(text);
    ghost var k := 0;
    var section, pos := "", 0;
    while pos < |text|
      invariant IsAt(text, pieces, k, pos)
      invariant section == SectionBefore(pieces, k)
      invariant FirstRefueling(pieces, 0) == FirstRefueling(pieces, k)
      decreases |text| - pos
    {
      var line := NextLine(text, pos);
      NextPiece(text, pieces, k, pos);
      var trimmed := Trim(line.text);
      var name := SectionName(trimmed);
      if name.Some? {
        section := name.value;
      } else if section == AIRCRAFT_SECTION && IsRefuelingLine(trimmed) {
        return ValueOf(trimmed);
      }
      pos, k := line.next, k + 1;
    }
    return None;
  }

  lemma ConcatSplits(pieces: seq<string>, k: nat)
    requires k <= |pieces|
    ensures Concat(pieces) == Concat(pieces[..k]) + Concat(pieces[k..])
  {
    ConcatAppends(pieces[..k], pieces[k..]);
    assert pieces == pieces[..k] + pieces[k..];
  }

  lemma PiecesBehind(content: string, pieces: seq<string>, k: nat, pos: nat)
    requires IsAt(content, pieces, k, pos)
    ensures Concat(pieces[k..]) == content[pos..]
  {
    PiecesPartition(content, pos);
  }

  lemma PiecesBefore(content: string, pieces: seq<string>, k: nat, pos: nat)
    requires IsAt(content, pieces, k, pos) && Concat(pieces) == content
    ensures Concat(pieces[..k]) == content[..pos] && Concat(pieces[k..]) == content[pos..]
  {
    PiecesBehind(content, pieces, k, pos);
    ConcatSplits(pieces, k);
    SameBack(content, Concat(pieces[..k]), pos);
  }

  lemma SameBack(content: string, front: string, pos: nat)
    requires pos <= |content| && content == front + content[pos..]
    ensures front == content[..pos]
  {
    assert |front| == pos;
  }

  lemma NextPiece(content: string, pieces: seq<string>, k: nat, pos: nat)
    requires IsAt(content, pieces, k, pos) && pos < |content|
    ensures k < |pieces| && IsAt(content, pieces, k + 1, NextLine(content, pos).next)
    ensures LineOf(pieces[k]) == NextLine(content, pos).text
    ensures EndingOf(pieces[k]) == content[NextLine(content, pos).end..NextLine(content, pos).next]
  {
    LineIsThePiece(content, pos);
    assert pieces[k..][0] == pieces[k] == content[pos..NextLine(content, pos).next] && pieces[k..][1..] == pieces[k + 1..];
  }

  lemma ConcatOfThree(front: seq<string>, piece: string, back: seq<string>)
    ensures Concat(front + [piece] + back) == Concat(front) + piece + Concat(back)
  {
    ConcatAppends(front + [piece], back);
    ConcatAppends(front, [piece]);
    assert Concat([piece]) == piece;
  }

  lemma ReplacedPiece(content: string, pieces: seq<string>, k: nat, pos: nat, line: string)
    requires IsAt(content, pieces, k, pos) && pos < |content| && Concat(pieces) == content
    ensures k < |pieces|
    ensures content[..pos] + line + content[NextLine(content, pos).end..] == Concat(pieces[k := line + EndingOf(pieces[k])])
  {
    var view := NextLine(content, pos);
    NextPiece(content, pieces, k, pos);
    PiecesBefore(content, pieces, k, pos);
    PiecesBefore(content, pieces, k + 1, view.next);
    ConcatReplaced(pieces, k, line + EndingOf(pieces[k]));
    TailSplits(content, view.end, view.next);
    FourParts(content[..pos], line, EndingOf(pieces[k]), content[view.next..]);
  }

  lemma FourParts(a: string, b: string, c: string, d: string)
    ensures a + b + (c + d) == a + (b + c) + d
  {
  }

  lemma TailSplits(content: string, end: nat, next: nat)
    requires end <= next <= |content|
    ensures content[end..] == content[end..next] + content[next..]
  {
  }

  lemma ConcatReplaced(pieces: seq<string>, k: nat, replaced: string)
    requires k < |pieces|
    ensures Concat(pieces[k := replaced]) == Concat(pieces[..k]) + replaced + Concat(pieces[k + 1..])
  {
    ConcatOfThree(pieces[..k], replaced, pieces[k + 1..]);
    assert pieces[k := replaced] == pieces[..k] + [replaced] + pieces[k + 1..];
  }

  lemma InsertedPiece(content: string, pieces: seq<string>, k: nat, pos: nat, piece: string)
    requires IsAt(content, pieces, k, pos) && Concat(pieces) == content
    ensures content[..pos] + piece + content[pos..] == Concat(pieces[..k] + [piece] + pieces[k..])
  {
    PiecesBefore(content, pieces, k, pos);
    ConcatOfThree(pieces[..k], piece, pieces[k..]);
  }

  /** How far the walk of a write has come: k pieces, none of which is the entry. */
  ghost predicate HasWalked(content: string, k: nat, pos: nat, section: string, afterHeader: Option<nat>) {
    var pieces := Pieces(content);
    && IsAt(content, pieces, k, pos)
    && section == SectionBefore(pieces, k)
    && FirstRefueling(pieces, 0) == FirstRefueling(pieces, k)
    && match afterHeader
       case None => AfterLastHeader(pieces, k) == 0
       case Some(after) => AfterLastHeader(pieces, k) > 0 && IsAt(content, pieces, AfterLastHeader(pieces, k), after)
  }

  predicate IsTheEntry(line: string, section: string) {
    SectionName(line).None? && section == AIRCRAFT_SECTION && IsRefuelingLine(line)
  }

  lemma WalkPast(content: string, k: nat, pos: nat, section: string, afterHeader: Option<nat>)
    requires HasWalked(content, k, pos, section, afterHeader) && pos < |content|
    requires !IsTheEntry(Trim(NextLine(content, pos).text), section)
    ensures var line := NextLine(content, pos);
            var name := SectionName(Trim(line.text));
            HasWalked(content, k + 1, line.next, if name.Some? then name.value else section,
                      if name == Some(AIRCRAFT_SECTION) then Some(line.next) else afterHeader)
  {
    NextPiece(content, Pieces(content), k, pos);
  }

  lemma WholeText(content: string)
    ensures Concat(Pieces(content)) == content && ArePieces(Pieces(content))
  {
    PiecesPartition(content, 0);
    assert content[0..] == content;
  }

  lemma WalkFinds(content: string, k: nat, pos: nat, section: string, afterHeader: Option<nat>, value: int)
    requires HasWalked(content, k, pos, section, afterHeader) && pos < |content|
    requires IsTheEntry(Trim(NextLine(content, pos).text), section)
    ensures WriteText(content, value) == Some(content[..pos] + RefuelingLine(value) + content[NextLine(content, pos).end..])
  {
    WholeText(content);
    NextPiece(content, Pieces(content), k, pos);
    ReplacedPiece(content, Pieces(content), k, pos, RefuelingLine(value));
  }

  lemma WalkEnds(content: string, k: nat, section: string, afterHeader: Option<nat>, value: int)
    requires HasWalked(content, k, |content|, section, afterHeader)
    ensures WriteText(content, value)
            == match afterHeader
               case None => None
               case Some(after) => Some(content[..after] + (RefuelingLine(value) + EolOf(content)) + content[after..])
  {
    WholeText(content);
    var pieces := Pieces(content);
    assert k == |pieces|;
    if afterHeader.Some? {
      InsertedPiece(content, pieces, AfterLastHeader(pieces, k), afterHeader.value, RefuelingLine(value) + EolOf(content));
    }
  }

  /** None stands for a write that fails: no file, or no section to write into. */
  method WriteRefueling(content: Option<string>, value: int) returns (written: Option<string>)
    ensures written == if content.Some? then WriteText(content.value, value) else None
  {
    if content.None? {
      return None;
    }
    var text := content.value;
    var eol := EolOf(text);
    var refuelingLine := RefuelingLine(value);
    ghost var k := 0;
    var section, pos, afterHeader := "", 0, None;
    while pos < |text|
      invariant HasWalked(text, k, pos, section, afterHeader)
      decreases |text| - pos
    {
      var line := NextLine(text, pos);
      var trimmed := Trim(line.text);
      var name := SectionName(trimmed);
      if name.None? && section == AIRCRAFT_SECTION && IsRefuelingLine(trimmed) {
        WalkFinds(text, k, pos, section, afterHeader, value);
        return Some(text[..pos] + refuelingLine + text[line.end..]);
      }
      WalkPast(text, k, pos, section, afterHeader);
      if name.Some? {
        section := name.value;
        if section == AIRCRAFT_SECTION {
          afterHeader := Some(line.next);
        }
      }
      pos, k := line.next, k + 1;
    }
    WalkEnds(text, k, section, afterHeader, value);
    match afterHeader {
      case None => return None;
      case Some(after) => return Some(text[..after] + (refuelingLine + eol) + text[after..]);
    }
  }
}
