/**
  The wire log tool (`tools/wire-expand.py`): JSON pointers, JSON patches on values, and the rewriting of
  differential patch lines as full ones.  The text of JSON is not modelled; a raised exception is None.
*/
module WireExpand {
  import opened Options
  import Json

  type Value = Json.Json

  // ----- Pointers (sections 3 and 4 of RFC 6901) -----

  /** The text with every occurrence of a pair of letters replaced, from left to right. */
  function ReplacePairs(text: string, first: char, second: char, put: char): string {
    if |text| < 2 then text
    else if text[0] == first && text[1] == second then [put] + ReplacePairs(text[2..], first, second, put)
    else [text[0]] + ReplacePairs(text[1..], first, second, put)
  }

  /** The parts between the slashes; there is always at least one. */
  function SplitAtSlashes(text: string): (parts: seq<string>)
    ensures parts != []
  {
    if text == "" then [""]
    else
      var parts := SplitAtSlashes(text[1..]);
      if text[0] == '/' then [""] + parts else [[text[0]] + parts[0]] + parts[1..]
  }

  function Unescape(token: string): string {
    ReplacePairs(ReplacePairs(token, '~', '1', '/'), '~', '0', '~')
  }

  function UnescapeAll(parts: seq<string>): seq<string> {
    seq(|parts|, i requires 0 <= i < |parts| => Unescape(parts[i]))
  }

  function PointerTokens(pointer: string): seq<string> {
    if pointer == "" then [] else UnescapeAll(SplitAtSlashes(pointer)[1..])
  }

  /** How a token is written in a pointer. */
  function Escape(token: string): string {
    if token == "" then ""
    else (if token[0] == '~' then "~0" else if token[0] == '/' then "~1" else [token[0]]) + Escape(token[1..])
  }

  function Pointer(tokens: seq<string>): string {
    if tokens == [] then "" else "/" + Escape(tokens[0]) + Pointer(tokens[1..])
  }

  // ----- Patches (section 4 of RFC 6902) -----

  /** How a token is read as an index; which texts are numbers is left open. */
  type Indexing = string -> Option<int>

  const ADD := Json.Str("add")
  const REMOVE := Json.Str("remove")
  const REPLACE := Json.Str("replace")

  datatype Operation = Operation(path: string, kind: Value, value: Option<Value>)

  /** A position counted from the end when negative. */
  function ListPosition(index: int, length: nat): Option<nat> {
    if 0 <= index < length then Some(index)
    else if index < 0 <= length + index then Some(length + index)
    else None
  }

  function InsertPosition(index: int, length: nat): (at: nat)
    ensures at <= length
  {
    if index < 0 then (if length + index < 0 then 0 else length + index)
    else if index > length then length
    else index
  }

  function Child(container: Value, token: string, ints: Indexing): Option<Value> {
    match container
    case Arr(items) =>
      (match ints(token)
       case None => None
       case Some(index) =>
         match ListPosition(index, |items|)
         case Some(at) => Some(items[at])
         case None => None)
    case Obj(fields) => if token in fields then Some(fields[token]) else None
    case _ => None
  }

  function WithChild(container: Value, token: string, ints: Indexing, child: Value): Value {
    match container
    case Arr(items) =>
      (match ints(token)
       case None => container
       case Some(index) =>
         match ListPosition(index, |items|)
         case Some(at) => Json.Arr(items[at := child])
         case None => container)
    case Obj(fields) => Json.Obj(fields[token := child])
    case _ => container
  }

  function EditList(items: seq<Value>, kind: Value, index: int, value: Option<Value>): Option<seq<Value>> {
    if kind == ADD then
      (match value
       case None => None
       case Some(added) => var at := InsertPosition(index, |items|); Some(items[..at] + [added] + items[at..]))
    else
      match ListPosition(index, |items|)
      case None => None
      case Some(at) =>
        if kind == REMOVE then Some(items[..at] + items[at + 1..])
        else if kind == REPLACE && value.Some? then Some(items[at := value.value])
        else None
  }

  function EditObject(fields: map<string, Value>, kind: Value, last: string, value: Option<Value>): Option<map<string, Value>> {
    if kind == ADD || kind == REPLACE then
      (match value
       case None => None
       case Some(put) => Some(fields[last := put]))
    else if kind == REMOVE && last in fields then Some(fields - {last})
    else None
  }

  function IndexIn(items: seq<Value>, last: string, ints: Indexing): Option<int> {
    if last == "-" then Some(|items|) else ints(last)
  }

  /** An operation on the container that holds the place it names. */
  function Edit(parent: Value, last: string, operation: Operation, ints: Indexing): Option<Value> {
    match parent
    case Arr(items) =>
      (match IndexIn(items, last, ints)
       case None => None
       case Some(index) =>
         match EditList(items, operation.kind, index, operation.value)
         case Some(edited) => Some(Json.Arr(edited))
         case None => None)
    case Obj(fields) =>
      (match EditObject(fields, operation.kind, last, operation.value)
       case Some(edited) => Some(Json.Obj(edited))
       case None => None)
    case _ => None
  }

  function EditUnder(document: Value, tokens: seq<string>, operation: Operation, ints: Indexing): Option<Value>
    requires tokens != []
    decreases |tokens|
  {
    if |tokens| == 1 then Edit(document, tokens[0], operation, ints)
    else
      match Child(document, tokens[0], ints)
      case None => None
      case Some(child) =>
        match EditUnder(child, tokens[1..], operation, ints)
        case None => None
        case Some(edited) => Some(WithChild(document, tokens[0], ints, edited))
  }

  /** At the root every operation stands for its value, and for null when it has none. */
  function ApplyOperation(document: Value, operation: Operation, ints: Indexing): Option<Value> {
    var tokens := PointerTokens(operation.path);
    if tokens == [] then Some(if operation.value.Some? then operation.value.value else Json.Null)
    else EditUnder(document, tokens, operation, ints)
  }

  function ApplyPatch(document: Value, operations: seq<Operation>, ints: Indexing): Option<Value> {
    if operations == [] then Some(document)
    else
      match ApplyPatch(document, operations[..|operations| - 1], ints)
      case None => None
      case Some(patched) => ApplyOperation(patched, operations[|operations| - 1], ints)
  }

  function OperationOf(json: Value): Option<Operation> {
    var path, kind, value := Json.Member(json, "path"), Json.Member(json, "op"), Json.Member(json, "value");
    if !path.Str? || kind.Undefined? then None
    else Some(Operation(path.text, kind, if value.Undefined? then None else Some(value)))
  }

  function OperationsOf(items: seq<Value>): Option<seq<Operation>> {
    if items == [] then Some([])
    else
      match (OperationsOf(items[..|items| - 1]), OperationOf(items[|items| - 1]))
      case (Some(operations), Some(operation)) => Some(operations + [operation])
      case _ => None
  }

  // ----- Lines -----

  /**
    The JSON texts.  A value can be printed when every number in it can; what can be printed is read back and holds
    no line feed, and what is read can be printed.
  */
  datatype JsonText = JsonText(loads: string -> Option<Value>, dumps: Value -> string, isExact: real -> bool) {
    ghost predicate IsFaithful() {
      && (forall value: Value :: CanBePrinted(value, isExact) ==> loads(dumps(value)) == Some(value) && '\n' !in dumps(value))
      && (forall text: string :: loads(text).Some? ==> CanBePrinted(loads(text).value, isExact))
    }
  }

  /** There is nothing undefined in the value, and every number in it is exact. */
  ghost predicate CanBePrinted(value: Value, isExact: real -> bool) {
    match value
    case Undefined => false
    case Num(x) => isExact(x)
    case Arr(items) => forall item | item in items :: CanBePrinted(item, isExact)
    case Obj(fields) => forall key | key in fields :: CanBePrinted(fields[key], isExact)
    case _ => true
  }

  predicate IsWhitespace(c: char) {
    c == ' ' || '\t' <= c <= '\r'
  }

  /** Where the first letter of a kind is, from a position on. */
  function FirstWhere(text: string, start: nat, stop: char -> bool): (i: nat)
    requires start <= |text|
    ensures start <= i <= |text| && (i < |text| ==> stop(text[i]))
    ensures forall j | start <= j < i :: !stop(text[j])
    decreases |text| - start
  {
    if start == |text| || stop(text[start]) then start else FirstWhere(text, start + 1, stop)
  }

  function Blank(): char -> bool {
    c => IsWhitespace(c)
  }

  function ClosingBracket(): char -> bool {
    c => c == ']'
  }

  /** The length of the time stamp and phase that every line of the log begins with, if it does. */
  function PrefixLength(content: string): (n: Option<nat>)
    ensures n.Some? ==> n.value <= |content|
  {
    var space := FirstWhere(content, 0, Blank());
    if space == 0 || space + 1 >= |content| || content[space] != ' ' || content[space + 1] != '[' then None
    else
      var bracket := FirstWhere(content, space + 2, ClosingBracket());
      if bracket + 1 >= |content| || content[bracket + 1] != ' ' || '\n' in content[bracket + 2..] then None
      else Some(bracket + 2)
  }

  type Memo = map<string, Value>

  /** The patch a differential patch stands for. */
  function FullPatch(message: map<string, Value>, path: string, value: Value): Value {
    Json.Obj((if "ts" in message then map["ts" := message["ts"]] else map[])
             + map["type" := Json.Str("patch"), "path" := Json.Str(path), "value" := value])
  }

  /** What a line does: it changes the memo, or is rewritten as well. */
  datatype Effect = Nothing | Clear | Remember(path: string, value: Value) | Expand(path: string, value: Value) | Raise

  /** Of what is no list, only what is empty can be gone through without an exception. */
  predicate CanBeIterated(ops: Value) {
    ops.Undefined? || ops.Arr? || ops == Json.Obj(map[]) || ops == Json.Str("")
  }

  function EffectOf(message: map<string, Value>, memo: Memo, ints: Indexing): Effect {
    var json := Json.Obj(message);
    var kind := Json.Member(json, "type");
    var path := Json.Member(json, "path");
    if kind == Json.Str("snapshot") then Clear
    else if kind == Json.Str("patch") then
      (if path.Str? && "value" in message then Remember(path.text, message["value"]) else Nothing)
    else if kind == Json.Str("patch-diff") then
      // A list or an object cannot be looked up.
      (if path.Arr? || path.Obj? then Raise
       else if !path.Str? || path.text !in memo then Nothing
       else
         var ops := Json.Member(json, "ops");
         if !CanBeIterated(ops) then Raise
         else
           match OperationsOf(Json.ItemsOf(ops))
           case None => Raise
           case Some(operations) =>
             match ApplyPatch(memo[path.text], operations, ints)
             case Some(value) => Expand(path.text, value)
             case None => Raise)
    else Nothing
  }

  function MessageOf(content: string, texts: JsonText): Option<map<string, Value>> {
    match PrefixLength(content)
    case None => None
    case Some(n) =>
      match texts.loads(content[n..])
      case Some(Obj(message)) => Some(message)
      case _ => None
  }

  function EffectOfLine(content: string, memo: Memo, texts: JsonText, ints: Indexing): Effect {
    match MessageOf(content, texts)
    case Some(message) => EffectOf(message, memo, ints)
    case None => Nothing
  }

  function MemoAfter(memo: Memo, effect: Effect): Memo {
    match effect
    case Clear => map[]
    case Remember(path, value) => memo[path := value]
    case Expand(path, value) => memo[path := value]
    case _ => memo
  }

  function LineAfter(content: string, effect: Effect, texts: JsonText): string {
    match (effect, PrefixLength(content), MessageOf(content, texts))
    case (Expand(path, value), Some(n), Some(message)) => content[..n] + texts.dumps(FullPatch(message, path, value))
    case _ => content
  }

  datatype Pass = Pass(lines: seq<string>, memo: Memo)

  /** One pass over a log: the lines it writes, and what it remembers at the end. */
  function ExpandAll(lines: seq<string>, texts: JsonText, ints: Indexing): Option<Pass> {
    if lines == [] then Some(Pass([], map[]))
    else
      match ExpandAll(lines[..|lines| - 1], texts, ints)
      case None => None
      case Some(pass) =>
        var line := lines[|lines| - 1];
        var effect := EffectOfLine(line, pass.memo, texts, ints);
        if effect == Raise then None
        else Some(Pass(pass.lines + [LineAfter(line, effect, texts)], MemoAfter(pass.memo, effect)))
  }

  // ----- The loops -----

  method ApplyOperations(document: Value, operations: seq<Operation>, ints: Indexing) returns (patched: Option<Value>)
    ensures patched == ApplyPatch(document, operations, ints)
  {
    var current := document;
    for i := 0 to |operations|
      invariant ApplyPatch(document, operations[..i], ints) == Some(current)
    {
      assert operations[..i + 1][..i] == operations[..i];
      var next := ApplyOperation(current, operations[i], ints);
      if next.None? {
        FailureStays(document, operations, ints, i + 1);
        return None;
      }
      current := next.value;
    }
    assert operations[..|operations|] == operations;
    return Some(current);
  }

  lemma {:induction false} FailureStays(document: Value, operations: seq<Operation>, ints: Indexing, n: nat)
    requires n <= |operations| && ApplyPatch(document, operations[..n], ints) == None
    ensures ApplyPatch(document, operations, ints) == None
  {
    if n == |operations| {
      assert operations[..n] == operations;
    } else {
      assert operations[..|operations| - 1][..n] == operations[..n];
      FailureStays(document, operations[..|operations| - 1], ints, n);
    }
  }

  /** The memo lives as long as a pass does. */
  class Expander {
    const texts: JsonText
    const ints: Indexing
    var memo: Memo

    constructor (texts: JsonText, ints: Indexing)
      ensures this.texts == texts && this.ints == ints && memo == map[]
    {
      this.texts := texts;
      this.ints := ints;
      memo := map[];
    }

    method ExpandLine(content: string) returns (line: Option<string>)
      modifies this
      ensures var effect := EffectOfLine(content, old(memo), texts, ints);
              && (line.None? <==> effect == Raise)
              && memo == MemoAfter(old(memo), effect)
              && (line.Some? ==> line.value == LineAfter(content, effect, texts))
    {
      var effect := EffectOfLine(content, memo, texts, ints);
      match effect {
        case Nothing => line := Some(content);
        case Clear =>
          memo := map[];
          line := Some(content);
        case Remember(path, value) =>
          memo := memo[path := value];
          line := Some(content);
        case Expand(path, value) =>
          memo := memo[path := value];
          line := Some(LineAfter(content, effect, texts));
        case Raise => line := None;
      }
    }

    method Expand(lines: seq<string>) returns (written: Option<seq<string>>)
      modifies this
      ensures var pass := ExpandAll(lines, texts, ints);
              && (written.Some? <==> pass.Some?)
              && (written.Some? ==> pass.value == Pass(written.value, memo))
    {
      memo := map[];
      var done := [];
      for i := 0 to |lines|
        invariant ExpandAll(lines[..i], texts, ints) == Some(Pass(done, memo))
      {
        assert lines[..i + 1][..i] == lines[..i];
        var line := ExpandLine(lines[i]);
        if line.None? {
          ExceptionStays(lines, texts, ints, i + 1);
          return None;
        }
        done := done + [line.value];
      }
      assert lines[..|lines|] == lines;
      return Some(done);
    }
  }

  lemma {:induction false} ExceptionStays(lines: seq<string>, texts: JsonText, ints: Indexing, n: nat)
    requires n <= |lines| && ExpandAll(lines[..n], texts, ints) == None
    ensures ExpandAll(lines, texts, ints) == None
  {
    if n == |lines| {
      assert lines[..n] == lines;
    } else {
      assert lines[..|lines| - 1][..n] == lines[..n];
      ExceptionStays(lines[..|lines| - 1], texts, ints, n);
    }
  }
}
