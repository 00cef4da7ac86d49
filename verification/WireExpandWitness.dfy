/**
  There are texts that are faithful: what the log expansion asks of a printer and a parser of JSON can be met.  The
  texts here are not those of JSON; all that matters is that different values have different ones.
*/
module WireExpandWitness {
  import opened Options
  import opened Texts
  import Json
  import opened WireExpand

  // ----- A text for every value -----

  function CharsText(text: string): string {
    if text == "" then ";" else Decimal(text[0] as int) + "," + CharsText(text[1..])
  }

  function WholeText(n: int): string {
    (if n < 0 then "-" + Decimal(-n) else "+" + Decimal(n)) + ";"
  }

  predicate ArePartOf(fields: map<string, Value>, all: map<string, Value>) {
    forall key | key in fields :: key in all && fields[key] == all[key]
  }

  ghost function Dump(value: Value): (text: string)
    ensures text != ""
    decreases value, 1, 0
  {
    match value
    case Undefined => "u"
    case Null => "n"
    case Bool(flag) => if flag then "t" else "f"
    case Num(x) => "#" + WholeText(x.Floor)
    case Str(text) => "s" + CharsText(text)
    case Arr(items) => "[" + DumpItems(value, 0)
    case Obj(fields) => "{" + DumpFields(value, fields)
  }

  ghost function DumpItems(owner: Value, i: nat): string
    requires owner.Arr? && i <= |owner.items|
    decreases owner, 0, |owner.items| - i
  {
    if i == |owner.items| then "]" else Dump(owner.items[i]) + DumpItems(owner, i + 1)
  }

  /** The fields in some order: whichever it is, it can be read off the text. */
  ghost function DumpFields(owner: Value, fields: map<string, Value>): string
    requires owner.Obj? && ArePartOf(fields, owner.fields)
    decreases owner, 0, |fields|
  {
    if fields == map[] then "}"
    else
      var key :| key in fields;
      "k" + CharsText(key) + Dump(fields[key]) + DumpFields(owner, fields - {key})
  }

  // ----- Every text is that of one value -----

  lemma SplitFirst(a: string, s: string, b: string, t: string)
    requires a + s == b + t && |a| == |b|
    ensures a == b && s == t
  {
    assert (a + s)[..|a|] == a && (b + t)[..|b|] == b;
    assert (a + s)[|a|..] == s && (b + t)[|b|..] == t;
  }

  lemma SplitAfter(a: string, x: string, s: string, b: string, y: string, t: string)
    requires a + x + s == b + y + t && |a| == |b|
    ensures a == b && x + s == y + t
  {
    assert a + x + s == a + (x + s) && b + y + t == b + (y + t);
    SplitFirst(a, x + s, b, y + t);
  }

  lemma Regroup(a: string, b: string, c: string, d: string)
    ensures a + b + c + d == a + (b + (c + d))
  {
  }

  lemma {:induction false} DigitsBefore(digits: string, rest: string)
    requires (forall c | c in digits :: IsDigit(c)) && (rest == "" || !IsDigit(rest[0]))
    ensures LeadingDigits(digits + rest) == digits
  {
    if digits == "" {
      assert digits + rest == rest;
    } else {
      assert digits[0] in digits && (digits + rest)[1..] == digits[1..] + rest;
      DigitsBefore(digits[1..], rest);
    }
  }

  lemma DecimalsAreUnique(m: nat, n: nat, s: string, t: string)
    requires Decimal(m) + s == Decimal(n) + t
    requires s != "" && t != "" && !IsDigit(s[0]) && !IsDigit(t[0])
    ensures m == n && s == t
  {
    DecimalIsRead(m);
    DecimalIsRead(n);
    DigitsBefore(Decimal(m), s);
    DigitsBefore(Decimal(n), t);
    assert (Decimal(m) + s)[|Decimal(m)|..] == s && (Decimal(n) + t)[|Decimal(n)|..] == t;
  }

  lemma CharsBeforeTheRest(text: string, s: string)
    requires text != ""
    ensures CharsText(text) + s == Decimal(text[0] as int) + ("," + (CharsText(text[1..]) + s))
  {
    Regroup(Decimal(text[0] as int), ",", CharsText(text[1..]), s);
  }

  lemma CharsBeginWithADigit(text: string, s: string)
    requires text != ""
    ensures IsDigit((CharsText(text) + s)[0])
  {
    DecimalIsRead(text[0] as int);
    assert Decimal(text[0] as int)[0] in Decimal(text[0] as int);
  }

  lemma {:induction false} CharsAreUnique(a: string, b: string, s: string, t: string)
    requires CharsText(a) + s == CharsText(b) + t
    ensures a == b && s == t
  {
    if a == "" && b == "" {
      SplitFirst(";", s, ";", t);
    } else if a == "" {
      CharsBeginWithADigit(b, t);
    } else if b == "" {
      CharsBeginWithADigit(a, s);
    } else {
      var moreA, moreB := CharsText(a[1..]) + s, CharsText(b[1..]) + t;
      CharsBeforeTheRest(a, s);
      CharsBeforeTheRest(b, t);
      DecimalsAreUnique(a[0] as int, b[0] as int, "," + moreA, "," + moreB);
      SplitFirst(",", moreA, ",", moreB);
      CharsAreUnique(a[1..], b[1..], s, t);
      assert a == [a[0]] + a[1..] && b == [b[0]] + b[1..];
    }
  }

  lemma WholesAreUnique(m: int, n: int, s: string, t: string)
    requires WholeText(m) + s == WholeText(n) + t
    ensures m == n && s == t
  {
    var signA, signB := if m < 0 then "-" else "+", if n < 0 then "-" else "+";
    var a, b := if m < 0 then -m else m, if n < 0 then -n else n;
    assert WholeText(m) + s == signA + Decimal(a) + (";" + s) && WholeText(n) + t == signB + Decimal(b) + (";" + t);
    SplitAfter(signA, Decimal(a), ";" + s, signB, Decimal(b), ";" + t);
    DecimalsAreUnique(a, b, ";" + s, ";" + t);
    SplitFirst(";", s, ";", t);
  }

  predicate IsWhole(x: real) {
    Json.IsWhole(x)
  }

  ghost predicate CanBeDumped(value: Value) {
    CanBePrinted(value, IsWhole)
  }

  lemma FirstLetter(value: Value)
    ensures Dump(value)[0] == match value
                              case Undefined => 'u'
                              case Null => 'n'
                              case Bool(flag) => if flag then 't' else 'f'
                              case Num(_) => '#'
                              case Str(_) => 's'
                              case Arr(_) => '['
                              case Obj(_) => '{'
  {
  }

  lemma FirstLetterOfMore(value: Value, s: string)
    ensures (Dump(value) + s)[0] == Dump(value)[0]
  {
  }

  /** The texts can be told apart even with something behind them. */
  lemma {:induction false} DumpsAreUnique(a: Value, b: Value, s: string, t: string)
    requires CanBeDumped(a) && CanBeDumped(b) && Dump(a) + s == Dump(b) + t
    ensures a == b && s == t
    decreases a, 1, 0
  {
    FirstLetter(a);
    FirstLetter(b);
    FirstLetterOfMore(a, s);
    FirstLetterOfMore(b, t);
    match a {
      case Num(x) =>
        SplitAfter("#", WholeText(x.Floor), s, "#", WholeText(b.number.Floor), t);
        WholesAreUnique(x.Floor, b.number.Floor, s, t);
      case Str(text) =>
        SplitAfter("s", CharsText(text), s, "s", CharsText(b.text), t);
        CharsAreUnique(text, b.text, s, t);
      case Arr(items) =>
        SplitAfter("[", DumpItems(a, 0), s, "[", DumpItems(b, 0), t);
        ItemsAreUnique(a, b, 0, s, t);
        assert items[0..] == items && b.items[0..] == b.items;
      case Obj(fields) =>
        SplitAfter("{", DumpFields(a, fields), s, "{", DumpFields(b, b.fields), t);
        FieldsAreUnique(a, b, fields, b.fields, s, t);
      case Null => SplitFirst("n", s, "n", t);
      case Bool(_) => SplitFirst(Dump(a), s, Dump(b), t);
      case Undefined =>
    }
  }

  lemma ItemsBeforeTheRest(owner: Value, i: nat, s: string)
    requires owner.Arr? && i <= |owner.items|
    ensures i == |owner.items| ==> DumpItems(owner, i) + s == "]" + s
    ensures i < |owner.items| ==>
            && DumpItems(owner, i) + s == Dump(owner.items[i]) + (DumpItems(owner, i + 1) + s)
            && (DumpItems(owner, i) + s)[0] != ']'
  {
    if i < |owner.items| {
      FirstLetter(owner.items[i]);
    }
  }

  lemma {:induction false} ItemsAreUnique(a: Value, b: Value, i: nat, s: string, t: string)
    requires a.Arr? && b.Arr? && i <= |a.items| && i <= |b.items| && CanBeDumped(a) && CanBeDumped(b)
    requires DumpItems(a, i) + s == DumpItems(b, i) + t
    ensures a.items[i..] == b.items[i..] && s == t
    decreases a, 0, |a.items| - i
  {
    ItemsBeforeTheRest(a, i, s);
    ItemsBeforeTheRest(b, i, t);
    if i == |a.items| || i == |b.items| {
      assert ("]" + s)[0] == ("]" + t)[0] == ']';
      SplitFirst("]", s, "]", t);
    } else {
      assert a.items[i] in a.items && b.items[i] in b.items;
      DumpsAreUnique(a.items[i], b.items[i], DumpItems(a, i + 1) + s, DumpItems(b, i + 1) + t);
      ItemsAreUnique(a, b, i + 1, s, t);
      assert a.items[i..] == [a.items[i]] + a.items[i + 1..] && b.items[i..] == [b.items[i]] + b.items[i + 1..];
    }
  }

  lemma FieldsBeforeTheRest(owner: Value, fields: map<string, Value>, s: string) returns (key: string)
    requires owner.Obj? && ArePartOf(fields, owner.fields)
    ensures fields == map[] ==> DumpFields(owner, fields) + s == "}" + s
    ensures fields != map[] ==>
            && key in fields
            && DumpFields(owner, fields) + s == "k" + CharsText(key) + (Dump(fields[key]) + (DumpFields(owner, fields - {key}) + s))
  {
    if fields == map[] {
      key := "";
    } else {
      key :| key in fields && DumpFields(owner, fields) == "k" + CharsText(key) + Dump(fields[key]) + DumpFields(owner, fields - {key});
    }
  }

  lemma KeysAreUnique(key: string, other: string, s: string, t: string)
    requires "k" + CharsText(key) + s == "k" + CharsText(other) + t
    ensures key == other && s == t
  {
    SplitAfter("k", CharsText(key), s, "k", CharsText(other), t);
    CharsAreUnique(key, other, s, t);
  }

  lemma NoFieldIsNoKey(rest: string, key: string, more: string)
    ensures "}" + rest != "k" + CharsText(key) + more
  {
    assert ("}" + rest)[0] == '}' && ("k" + CharsText(key) + more)[0] == 'k';
  }

  lemma WithoutTheKey(here: map<string, Value>, there: map<string, Value>, key: string)
    requires key in here && key in there && here[key] == there[key] && here - {key} == there - {key}
    ensures here == there
  {
    assert here == (here - {key})[key := here[key]] && there == (there - {key})[key := there[key]];
  }

  lemma {:induction false} FieldsAreUnique(a: Value, b: Value, here: map<string, Value>, there: map<string, Value>, s: string, t: string)
    requires a.Obj? && b.Obj? && ArePartOf(here, a.fields) && ArePartOf(there, b.fields) && CanBeDumped(a) && CanBeDumped(b)
    requires DumpFields(a, here) + s == DumpFields(b, there) + t
    ensures here == there && s == t
    decreases a, 0, |here|
  {
    var key := FieldsBeforeTheRest(a, here, s);
    var other := FieldsBeforeTheRest(b, there, t);
    if here == map[] && there == map[] {
      SplitFirst("}", s, "}", t);
    } else if here == map[] {
      NoFieldIsNoKey(s, other, Dump(there[other]) + (DumpFields(b, there - {other}) + t));
    } else if there == map[] {
      NoFieldIsNoKey(t, key, Dump(here[key]) + (DumpFields(a, here - {key}) + s));
    } else {
      var moreA, moreB := DumpFields(a, here - {key}) + s, DumpFields(b, there - {other}) + t;
      KeysAreUnique(key, other, Dump(here[key]) + moreA, Dump(there[other]) + moreB);
      DumpsAreUnique(here[key], there[other], moreA, moreB);
      FieldsAreUnique(a, b, here - {key}, there - {key}, s, t);
      WithoutTheKey(here, there, key);
    }
  }

  // ----- No text has a line feed -----

  lemma {:induction false} CharsHaveNoLineFeed(text: string)
    ensures '\n' !in CharsText(text)
  {
    if text != "" {
      DecimalIsRead(text[0] as int);
      CharsHaveNoLineFeed(text[1..]);
    }
  }

  lemma {:induction false} DumpsHaveNoLineFeed(value: Value)
    ensures '\n' !in Dump(value)
    decreases value, 1, 0
  {
    match value {
      case Num(x) => DecimalIsRead(if x.Floor < 0 then -x.Floor else x.Floor);
      case Str(text) => CharsHaveNoLineFeed(text);
      case Arr(_) => ItemsHaveNoLineFeed(value, 0);
      case Obj(fields) => FieldsHaveNoLineFeed(value, fields);
      case _ =>
    }
  }

  lemma {:induction false} ItemsHaveNoLineFeed(owner: Value, i: nat)
    requires owner.Arr? && i <= |owner.items|
    ensures '\n' !in DumpItems(owner, i)
    decreases owner, 0, |owner.items| - i
  {
    if i < |owner.items| {
      DumpsHaveNoLineFeed(owner.items[i]);
      ItemsHaveNoLineFeed(owner, i + 1);
    }
  }

  lemma {:induction false} FieldsHaveNoLineFeed(owner: Value, fields: map<string, Value>)
    requires owner.Obj? && ArePartOf(fields, owner.fields)
    ensures '\n' !in DumpFields(owner, fields)
    decreases owner, 0, |fields|
  {
    if fields != map[] {
      var key :| key in fields && DumpFields(owner, fields) == "k" + CharsText(key) + Dump(fields[key]) + DumpFields(owner, fields - {key});
      CharsHaveNoLineFeed(key);
      DumpsHaveNoLineFeed(fields[key]);
      FieldsHaveNoLineFeed(owner, fields - {key});
    }
  }

  // ----- The witness -----

  ghost predicate IsDumpOf(value: Value, text: string) {
    CanBeDumped(value) && Dump(value) == text
  }

  ghost function Loaded(text: string): (value: Option<Value>)
    ensures value.Some? ==> IsDumpOf(value.value, text)
    ensures value.None? ==> forall v: Value :: !IsDumpOf(v, text)
  {
    if exists value: Value :: IsDumpOf(value, text) then var value: Value :| IsDumpOf(value, text); Some(value) else None
  }

  /** Every JSON value whose numbers are whole is read back from its text. */
  lemma FaithfulTextsExist()
    ensures JsonText(Loaded, Dump, IsWhole).IsFaithful()
  {
    forall value: Value | CanBePrinted(value, IsWhole) ensures Loaded(Dump(value)) == Some(value) && '\n' !in Dump(value) {
      assert IsDumpOf(value, Dump(value));
      var loaded := Loaded(Dump(value)).value;
      DumpsAreUnique(loaded, value, "", "");
      DumpsHaveNoLineFeed(value);
    }
  }
}
