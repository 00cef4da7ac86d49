/** The association list that every save and restore goes through (`MemoryBag.h`). */
module MemoryBags {
  import opened Options
  import opened Texts

  datatype Entry = Entry(name: string, value: string)

  type Entries = seq<Entry>

  const TRUE_TEXT := "1"
  const FALSE_TEXT := "0"

  /**
    Numbers are stored as text.  The shortest-digits printer and its parser are taken as given; whatever is said of
    a number that was saved asks that this number is one that they read back.
  */
  datatype NumberText = NumberText(print_: real -> string, parse: string -> Option<real>) {
    predicate IsExactAt(x: real) {
      parse(print_(x)) == Some(x)
    }
  }

  /** One that reads back every whole number. */
  const WHOLE_NUMBERS := NumberText(
    (x: real) => IntegerText(x.Floor),
    (text: string) => match LeadingInteger(text) case Some(n) => Some(n as real) case None => None)

  lemma WholeNumbersAreReadBack(n: int)
    ensures WHOLE_NUMBERS.IsExactAt(n as real)
  {
    IntegerRoundTrip(n);
    assert (n as real).Floor == n;
  }

  /** The value of the first entry with the name. */
  function Find(entries: Entries, name: string): Option<string> {
    if entries == [] then None
    else if entries[0].name == name then Some(entries[0].value)
    else Find(entries[1..], name)
  }

  /** The entries with the first entry of the name replaced, or with a new entry at the end. */
  function Put(entries: Entries, name: string, value: string): Entries {
    if entries == [] then [Entry(name, value)]
    else if entries[0].name == name then [Entry(name, value)] + entries[1..]
    else [entries[0]] + Put(entries[1..], name, value)
  }

  function FlagText(value: bool): string {
    if value then TRUE_TEXT else FALSE_TEXT
  }

  function Text(entries: Entries, name: string, fallback: string): string {
    match Find(entries, name)
    case Some(value) => value
    case None => fallback
  }

  function Flag(entries: Entries, name: string, fallback: bool): bool {
    match Find(entries, name)
    case Some(value) => if value == TRUE_TEXT then true else if value == FALSE_TEXT then false else fallback
    case None => fallback
  }

  function Number(numbers: NumberText, entries: Entries, name: string, fallback: real): real {
    match Find(entries, name)
    case Some(value) => (match numbers.parse(value) case Some(x) => x case None => fallback)
    case None => fallback
  }

  /** A put is read back under its own name and under no other. */
  lemma {:induction false} FindAfterPut(entries: Entries, name: string, value: string, other: string)
    ensures Find(Put(entries, name, value), other) == if other == name then Some(value) else Find(entries, other)
  {
    if entries != [] && entries[0].name != name {
      FindAfterPut(entries[1..], name, value, other);
    }
  }

  /** A flag that a bag holds is read back, whatever the fallback. */
  lemma HeldFlagIsRead(entries: Entries, name: string, value: bool, fallback: bool)
    requires Find(entries, name) == Some(FlagText(value))
    ensures Flag(entries, name, fallback) == value
  {
  }

  /** So is a number, if its text is. */
  lemma HeldNumberIsRead(numbers: NumberText, entries: Entries, name: string, value: real, fallback: real)
    requires Find(entries, name) == Some(numbers.print_(value)) && numbers.IsExactAt(value)
    ensures Number(numbers, entries, name, fallback) == value
  {
  }

  function Names(entries: Entries): seq<string> {
    seq(|entries|, i requires 0 <= i < |entries| => entries[i].name)
  }

  /** The order of the names is the order of their first put: a second put moves nothing. */
  lemma {:induction false} PutKeepsTheOrder(entries: Entries, name: string, value: string)
    ensures Names(Put(entries, name, value)) == Names(entries) + if Find(entries, name).Some? then [] else [name]
  {
    if entries != [] && entries[0].name != name {
      PutKeepsTheOrder(entries[1..], name, value);
      assert Names(entries) == [entries[0].name] + Names(entries[1..]);
      assert Names(Put(entries, name, value)) == [entries[0].name] + Names(Put(entries[1..], name, value));
    }
  }

  // ----- Entries saved under a prefix -----

  /** Each of the fields put in turn, under the prefix. */
  function PutAll(entries: Entries, prefix: string, fields: Entries): Entries
    decreases |fields|
  {
    if fields == [] then entries
    else PutAll(Put(entries, prefix + fields[0].name, fields[0].value), prefix, fields[1..])
  }

  predicate HasPrefix(name: string, prefix: string) {
    |prefix| <= |name| && name[..|prefix|] == prefix
  }

  lemma NamesUnderAPrefix(prefix: string, a: string, b: string)
    ensures HasPrefix(prefix + a, prefix)
    ensures prefix + a == prefix + b <==> a == b
  {
    assert (prefix + a)[|prefix|..] == a && (prefix + b)[|prefix|..] == b;
  }

  /** Saving under a prefix leaves every name without the prefix alone. */
  lemma {:induction false} PutAllStaysUnderThePrefix(entries: Entries, prefix: string, fields: Entries, name: string)
    requires !HasPrefix(name, prefix)
    ensures Find(PutAll(entries, prefix, fields), name) == Find(entries, name)
    decreases |fields|
  {
    if fields != [] {
      NamesUnderAPrefix(prefix, fields[0].name, fields[0].name);
      FindAfterPut(entries, prefix + fields[0].name, fields[0].value, name);
      PutAllStaysUnderThePrefix(Put(entries, prefix + fields[0].name, fields[0].value), prefix, fields[1..], name);
    }
  }

  predicate HasNoTwins(fields: Entries) {
    forall i, j | 0 <= i < j < |fields| :: fields[i].name != fields[j].name
  }

  lemma {:induction false} PutAllKeepsUnnamed(entries: Entries, prefix: string, fields: Entries, name: string)
    requires forall i | 0 <= i < |fields| :: fields[i].name != name
    ensures Find(PutAll(entries, prefix, fields), prefix + name) == Find(entries, prefix + name)
    decreases |fields|
  {
    if fields != [] {
      NamesUnderAPrefix(prefix, fields[0].name, name);
      FindAfterPut(entries, prefix + fields[0].name, fields[0].value, prefix + name);
      PutAllKeepsUnnamed(Put(entries, prefix + fields[0].name, fields[0].value), prefix, fields[1..], name);
    }
  }

  /** Every field saved under a prefix is read back, whatever the bag held before. */
  lemma {:induction false} FindAfterPutAll(entries: Entries, prefix: string, fields: Entries, i: nat)
    requires HasNoTwins(fields) && i < |fields|
    ensures Find(PutAll(entries, prefix, fields), prefix + fields[i].name) == Some(fields[i].value)
    decreases |fields|
  {
    var put := Put(entries, prefix + fields[0].name, fields[0].value);
    if i == 0 {
      FindAfterPut(entries, prefix + fields[0].name, fields[0].value, prefix + fields[0].name);
      PutAllKeepsUnnamed(put, prefix, fields[1..], fields[0].name);
    } else {
      FindAfterPutAll(put, prefix, fields[1..], i - 1);
    }
  }

  class MemoryBag {
    var entries: Entries

    constructor (initial: Entries)
      ensures entries == initial
    {
      entries := initial;
    }

    method PutText(name: string, value: string)
      modifies this
      ensures entries == Put(old(entries), name, value)
    {
      for i := 0 to |entries|
        invariant entries == old(entries)
        invariant Put(entries, name, value) == entries[..i] + Put(entries[i..], name, value)
      {
        if entries[i].name == name {
          entries := entries[i := Entry(name, value)];
          return;
        }
      }
      entries := entries + [Entry(name, value)];
    }

    method FindText(name: string) returns (value: Option<string>)
      ensures value == Find(entries, name)
    {
      for i := 0 to |entries|
        invariant Find(entries, name) == Find(entries[i..], name)
      {
        if entries[i].name == name {
          return Some(entries[i].value);
        }
      }
      return None;
    }
  }
}
