/** Rendering Python settings from JSON values, and reading the literals back. */
module PySettings {
  import opened Options
  import opened Sorting
  import opened Text
  import opened Quoting

  /** A decoded JSON value; a number keeps the text it was written with. */
  datatype Json =
    | Null
    | Bool(b: bool)
    | Number(text: string)
    | Str(s: string)
    | Arr(items: seq<Json>)
    | Obj(fields: map<string, Json>)

  /* ---- Literals ---- */

  function Join(parts: seq<string>): string {
    if parts == [] then "" else if |parts| == 1 then parts[0] else parts[0] + ", " + Join(parts[1..])
  }

  ghost function Literal(v: Json, isPrint: Printable): string
    decreases v
  {
    match v
    case Null => "None"
    case Bool(b) => if b then "True" else "False"
    case Number(text) => text
    case Str(s) => Quote(s, isPrint)
    case Arr(items) => "[" + Join(seq(|items|, i requires 0 <= i < |items| => Literal(items[i], isPrint))) + "]"
    case Obj(fields) =>
      var keys := SortedKeys(fields.Keys);
      "{" + Join(seq(|keys|, i requires 0 <= i < |keys| => PairLiteral(v, keys, i, isPrint))) + "}"
  }

  ghost function PairLiteral(v: Json, keys: seq<string>, i: nat, isPrint: Printable): string
    requires v.Obj? && keys == SortedKeys(v.fields.Keys) && i < |keys|
    decreases v, 0
  {
    assert keys[i] in keys;
    Quote(keys[i], isPrint) + ": " + Literal(v.fields[keys[i]], isPrint)
  }

  ghost function ItemLiterals(items: seq<Json>, isPrint: Printable): (r: seq<string>)
    ensures |r| == |items| && forall i :: 0 <= i < |r| ==> r[i] == Literal(items[i], isPrint)
  {
    seq(|items|, i requires 0 <= i < |items| => Literal(items[i], isPrint))
  }

  ghost function PairLiterals(v: Json, isPrint: Printable): (r: seq<string>)
    requires v.Obj?
    ensures
      var keys := SortedKeys(v.fields.Keys);
      |r| == |keys| && forall i :: 0 <= i < |r| ==> r[i] == PairLiteral(v, keys, i, isPrint)
  {
    var keys := SortedKeys(v.fields.Keys);
    seq(|keys|, i requires 0 <= i < |keys| => PairLiteral(v, keys, i, isPrint))
  }

  lemma LiteralOfItems(items: seq<Json>, isPrint: Printable)
    ensures Literal(Arr(items), isPrint) == "[" + Join(ItemLiterals(items, isPrint)) + "]"
  {
    assert ItemLiterals(items, isPrint) == seq(|items|, i requires 0 <= i < |items| => Literal(items[i], isPrint));
  }

  lemma LiteralOfFields(v: Json, isPrint: Printable)
    requires v.Obj?
    ensures Literal(v, isPrint) == "{" + Join(PairLiterals(v, isPrint)) + "}"
  {
    var keys := SortedKeys(v.fields.Keys);
    assert PairLiterals(v, isPrint) == seq(|keys|, i requires 0 <= i < |keys| => PairLiteral(v, keys, i, isPrint));
  }

  /** Python's names for the JSON constants, numbers as they stand, strings in
      double quotes, and brackets around what is joined. */
  lemma LiteralShapes(text: string, s: string, v: Json, w: Json, isPrint: Printable)
    ensures Literal(Null, isPrint) == "None" && Literal(Bool(true), isPrint) == "True" && Literal(Bool(false), isPrint) == "False"
    ensures Literal(Number(text), isPrint) == text && Literal(Str(s), isPrint) == "\"" + EscapeAll(s, isPrint) + "\""
    ensures Literal(Arr([]), isPrint) == "[]" && Literal(Arr([v]), isPrint) == "[" + Literal(v, isPrint) + "]"
    ensures Literal(Arr([v, w]), isPrint) == "[" + Literal(v, isPrint) + ", " + Literal(w, isPrint) + "]"
  {
    LiteralOfItems([], isPrint);
    LiteralOfItems([v], isPrint);
    LiteralOfItems([v, w], isPrint);
    assert ItemLiterals([v], isPrint) == [Literal(v, isPrint)];
    assert ItemLiterals([v, w], isPrint) == [Literal(v, isPrint), Literal(w, isPrint)];
    assert Join([Literal(v, isPrint), Literal(w, isPrint)]) == Literal(v, isPrint) + ", " + Literal(w, isPrint);
  }

  lemma NoFields(isPrint: Printable)
    ensures Literal(Obj(map[]), isPrint) == "{}"
  {
    LiteralOfFields(Obj(map[]), isPrint);
    assert PairLiterals(Obj(map[]), isPrint) == [];
  }

  lemma OneField(k: string, v: Json, isPrint: Printable)
    ensures PairLiterals(Obj(map[k := v]), isPrint) == ["\"" + EscapeAll(k, isPrint) + "\"" + ": " + Literal(v, isPrint)]
  {
    OneKey(k);
    assert Obj(map[k := v]).fields.Keys == {k};
  }

  /** An object is its quoted keys with their values between braces. */
  lemma ObjectShapes(k: string, v: Json, isPrint: Printable)
    ensures Literal(Obj(map[]), isPrint) == "{}"
    ensures Literal(Obj(map[k := v]), isPrint) == "{" + ("\"" + EscapeAll(k, isPrint) + "\"" + ": " + Literal(v, isPrint)) + "}"
  {
    NoFields(isPrint);
    OneField(k, v, isPrint);
    LiteralOfFields(Obj(map[k := v]), isPrint);
  }

  /** The source's recursion, appending to slices. */
  method ValueToPythonLiteral(v: Json, isPrint: Printable) returns (r: string)
    ensures r == Literal(v, isPrint)
    decreases v, 1
  {
    match v
    case Null => r := "None";
    case Bool(b) => r := if b then "True" else "False";
    case Number(text) => r := text;
    case Str(s) => r := Quote(s, isPrint);
    case Arr(values) =>
      var items := ItemsToLiterals(v, isPrint);
      LiteralOfItems(values, isPrint);
      r := "[" + Join(items) + "]";
    case Obj(_) =>
      var pairs := FieldsToLiterals(v, isPrint);
      LiteralOfFields(v, isPrint);
      r := "{" + Join(pairs) + "}";
  }

  method ItemsToLiterals(v: Json, isPrint: Printable) returns (items: seq<string>)
    requires v.Arr?
    ensures items == ItemLiterals(v.items, isPrint)
    decreases v, 0
  {
    items := [];
    for i := 0 to |v.items|
      invariant |items| == i && forall j :: 0 <= j < i ==> items[j] == Literal(v.items[j], isPrint)
    {
      var lit := ValueToPythonLiteral(v.items[i], isPrint);
      items := items + [lit];
    }
  }

  method FieldsToLiterals(v: Json, isPrint: Printable) returns (pairs: seq<string>)
    requires v.Obj?
    ensures pairs == PairLiterals(v, isPrint)
    decreases v, 0
  {
    var keys := CollectSorted(v.fields.Keys);
    pairs := [];
    for i := 0 to |keys|
      invariant |pairs| == i && forall j :: 0 <= j < i ==> pairs[j] == PairLiteral(v, keys, j, isPrint)
    {
      assert keys[i] in keys;
      var lit := ValueToPythonLiteral(v.fields[keys[i]], isPrint);
      pairs := pairs + [Quote(keys[i], isPrint) + ": " + lit];
    }
  }

  /* ---- Reading ---- */

  predicate NumberChar(c: char) { Digit(c) || c in "+-.eE" }

  /** Wide enough for every number of section 6 of RFC 8259. */
  predicate NumberText(s: string) {
    s != "" && (Digit(s[0]) || s[0] == '-') && forall i :: 0 <= i < |s| ==> NumberChar(s[i])
  }

  function NumberEnd(s: string): (n: nat)
    ensures n <= |s| && (forall i :: 0 <= i < n ==> NumberChar(s[i])) && (n < |s| ==> !NumberChar(s[n]))
  {
    if s == "" || !NumberChar(s[0]) then 0 else 1 + NumberEnd(s[1..])
  }

  function ReadValue(s: string): (r: Option<(Json, string)>)
    ensures r.Some? ==> |r.value.1| < |s|
    decreases |s|, 0
  {
    if "None" <= s then Some((Null, s[4..]))
    else if "True" <= s then Some((Bool(true), s[4..]))
    else if "False" <= s then Some((Bool(false), s[5..]))
    else if s == "" then None
    else if s[0] == '\"' then
      var q := ReadChars(s[1..]);
      if q == None then None else Some((Str(q.value.0), q.value.1))
    else if "[]" <= s then Some((Arr([]), s[2..]))
    else if s[0] == '[' then
      var items := ReadItems(s[1..]);
      if items == None then None else Some((Arr(items.value.0), items.value.1))
    else if "{}" <= s then Some((Obj(map[]), s[2..]))
    else if s[0] == '{' then
      var fields := ReadPairs(s[1..]);
      if fields == None then None else Some((Obj(fields.value.0), fields.value.1))
    else
      var n := NumberEnd(s);
      if n == 0 then None else Some((Number(s[..n]), s[n..]))
  }

  function ReadItems(s: string): (r: Option<(seq<Json>, string)>)
    ensures r.Some? ==> |r.value.1| < |s|
    decreases |s|, 1
  {
    var v := ReadValue(s);
    if v == None then None
    else if "]" <= v.value.1 then Some(([v.value.0], v.value.1[1..]))
    else if ", " <= v.value.1 then
      var more := ReadItems(v.value.1[2..]);
      if more == None then None else Some(([v.value.0] + more.value.0, more.value.1))
    else None
  }

  function ReadPairs(s: string): (r: Option<(map<string, Json>, string)>)
    ensures r.Some? ==> |r.value.1| < |s|
    decreases |s|, 1
  {
    if s == "" || s[0] != '\"' then None
    else
      var key := ReadChars(s[1..]);
      if key == None || !(": " <= key.value.1) then None
      else
        var v := ReadValue(key.value.1[2..]);
        if v == None then None
        else if "}" <= v.value.1 then Some((map[key.value.0 := v.value.0], v.value.1[1..]))
        else if ", " <= v.value.1 then
          var more := ReadPairs(v.value.1[2..]);
          if more == None then None else Some((more.value.0[key.value.0 := v.value.0], more.value.1))
        else None
  }

  ghost predicate WellFormed(v: Json)
    decreases v
  {
    match v
    case Number(text) => NumberText(text)
    case Arr(items) => forall i :: 0 <= i < |items| ==> WellFormed(items[i])
    case Obj(fields) => forall k :: k in fields ==> WellFormed(fields[k])
    case _ => true
  }

  /** What may follow a literal: nothing that could continue a number. */
  predicate Stops(rest: string) { rest == "" || !NumberChar(rest[0]) }

  /** How a literal starts, which tells its kind. */
  lemma LiteralStart(v: Json, isPrint: Printable)
    requires WellFormed(v)
    ensures
      var s := Literal(v, isPrint);
      && s != ""
      && (v.Number? ==> Digit(s[0]) || s[0] == '-') && (v.Str? ==> s[0] == '\"')
      && (v.Arr? ==> s[0] == '[') && (v.Obj? ==> s[0] == '{')
      && s[0] != ']' && s[0] != '}'
  {
    match v
    case Arr(items) => LiteralOfItems(items, isPrint);
    case Obj(_) => LiteralOfFields(v, isPrint);
    case _ =>
  }

  lemma NumberEndAt(s: string, n: nat)
    requires n <= |s| && (n < |s| ==> !NumberChar(s[n])) && forall i :: 0 <= i < n ==> NumberChar(s[i])
    ensures NumberEnd(s) == n
  {
    assert NumberEnd(s) < |s| ==> !NumberChar(s[NumberEnd(s)]);
  }

  lemma ReadsNumber(text: string, rest: string)
    requires NumberText(text) && Stops(rest)
    ensures ReadValue(text + rest) == Some((Number(text), rest))
  {
    var s := text + rest;
    assert forall i :: 0 <= i < |text| ==> s[i] == text[i];
    NumberEndAt(s, |text|);
    assert s[..|text|] == text && s[|text|..] == rest;
  }

  lemma ReadsQuoted(t: string, s: string, rest: string)
    requires ReadChars(t) == Some((s, rest))
    ensures ReadValue("\"" + t) == Some((Str(s), rest))
  {
    var text := "\"" + t;
    assert text[0] == '\"' && text[1..] == t;
  }

  lemma ReadsString(s: string, isPrint: Printable, rest: string)
    ensures ReadValue(Quote(s, isPrint) + rest) == Some((Str(s), rest))
  {
    ReadsEscaped(s, isPrint, rest);
    QuoteSplit(EscapeAll(s, isPrint), rest);
    ReadsQuoted(EscapeAll(s, isPrint) + "\"" + rest, s, rest);
  }

  lemma ReadsBracket(t: string, rest: string, items: seq<Json>)
    requires t != "" && t[0] != ']' && ReadItems(t) == Some((items, rest))
    ensures ReadValue("[" + t) == Some((Arr(items), rest))
  {
    var s := "[" + t;
    assert s[0] == '[' && s[1] == t[0];
    assert s[1..] == t;
    assert !("None" <= s) && !("True" <= s) && !("False" <= s) && !("[]" <= s);
  }

  lemma ReadsBrace(t: string, rest: string, fields: map<string, Json>)
    requires t != "" && t[0] != '}' && ReadPairs(t) == Some((fields, rest))
    ensures ReadValue("{" + t) == Some((Obj(fields), rest))
  {
    var s := "{" + t;
    assert s[0] == '{' && s[1] == t[0];
    assert s[1..] == t;
    assert !("None" <= s) && !("True" <= s) && !("False" <= s) && !("[]" <= s) && !("{}" <= s);
  }

  lemma Wrapped(open: string, body: string, close: string, rest: string)
    ensures open + body + close + rest == open + (body + close + rest)
    ensures body != "" ==> body + close + rest != "" && (body + close + rest)[0] == body[0]
  {
  }

  lemma ReadsAtoms(v: Json, isPrint: Printable, rest: string)
    requires WellFormed(v) && Stops(rest) && !v.Arr? && !v.Obj?
    ensures ReadValue(Literal(v, isPrint) + rest) == Some((v, rest))
  {
    var s := Literal(v, isPrint) + rest;
    match v
    case Null => assert s[4..] == rest;
    case Bool(b) =>
      assert s[0] == if b then 'T' else 'F';
      assert if b then s[4..] == rest else s[5..] == rest;
    case Number(text) => ReadsNumber(text, rest);
    case Str(t) => ReadsString(t, isPrint, rest);
  }

  lemma ReadsEmpty(rest: string)
    ensures ReadValue("[" + "" + "]" + rest) == Some((Arr([]), rest))
    ensures ReadValue("{" + "" + "}" + rest) == Some((Obj(map[]), rest))
  {
    var a, o := "[" + "" + "]" + rest, "{" + "" + "}" + rest;
    assert a[2..] == rest && o[2..] == rest;
    assert a[0] == '[' && a[1] == ']' && o[0] == '{' && o[1] == '}';
  }

  lemma JoinStart(parts: seq<string>)
    requires parts != [] && parts[0] != ""
    ensures Join(parts) != "" && Join(parts)[0] == parts[0][0]
  {
  }

  lemma Assoc(x: string, y: string, z: string)
    ensures x + y + z == x + (y + z)
  {
  }

  lemma JoinOne(parts: seq<string>, close: string, rest: string)
    requires |parts| == 1
    ensures Join(parts) + close + rest == parts[0] + (close + rest)
  {
    Assoc(parts[0], close, rest);
  }

  /** The first part, and what a reader finds after it. */
  lemma JoinMore(parts: seq<string>, close: string, rest: string)
    requires |parts| > 1
    ensures Join(parts) + close + rest == parts[0] + (", " + (Join(parts[1..]) + close + rest))
  {
    var head, more := parts[0], Join(parts[1..]);
    Assoc(head, ", ", more);
    Assoc(head, ", " + more, close);
    Assoc(head, ", " + more + close, rest);
    Assoc(", ", more, close);
    Assoc(", ", more + close, rest);
  }

  lemma {:induction false} ReadsLiteral(v: Json, isPrint: Printable, rest: string)
    requires WellFormed(v) && Stops(rest)
    ensures ReadValue(Literal(v, isPrint) + rest) == Some((v, rest))
    decreases v, 1, 0
  {
    match v
    case Arr(items) =>
      LiteralOfItems(items, isPrint);
      var parts := ItemLiterals(items, isPrint);
      if items == [] {
        ReadsEmpty(rest);
      } else {
        ReadsItems(v, 0, isPrint, rest);
        assert parts[0..] == parts && items[0..] == items;
        LiteralStart(items[0], isPrint);
        JoinStart(parts);
        Wrapped("[", Join(parts), "]", rest);
        ReadsBracket(Join(parts) + "]" + rest, rest, items);
      }
    case Obj(fields) =>
      LiteralOfFields(v, isPrint);
      var parts, keys := PairLiterals(v, isPrint), SortedKeys(fields.Keys);
      if keys == [] {
        assert fields == map[] by { assert forall k :: k in fields.Keys ==> k in keys; }
        ReadsEmpty(rest);
      } else {
        ReadsPairs(v, 0, isPrint, rest);
        assert parts[0..] == parts && keys[0..] == keys;
        assert parts[0][0] == '\"';
        JoinStart(parts);
        assert Fields(fields, keys) == fields;
        Wrapped("{", Join(parts), "}", rest);
        ReadsBrace(Join(parts) + "}" + rest, rest, fields);
      }
    case _ => ReadsAtoms(v, isPrint, rest);
  }

  lemma Separator(more: string)
    ensures !("]" <= ", " + more) && !("}" <= ", " + more) && ", " <= ", " + more && (", " + more)[2..] == more
  {
    assert (", " + more)[0] == ',' && (", " + more)[1] == ' ';
  }

  lemma ItemsFromLast(v: Json, parts: seq<string>, rest: string)
    requires |parts| == 1 && ReadValue(parts[0] + ("]" + rest)) == Some((v, "]" + rest))
    ensures ReadItems(Join(parts) + "]" + rest) == Some(([v], rest))
  {
    JoinOne(parts, "]", rest);
    assert ("]" + rest)[1..] == rest;
  }

  lemma ItemsFromMore(v: Json, items: seq<Json>, parts: seq<string>, more: string, rest: string)
    requires |parts| > 1 && more == Join(parts[1..]) + "]" + rest
    requires ReadValue(parts[0] + (", " + more)) == Some((v, ", " + more)) && ReadItems(more) == Some((items, rest))
    ensures ReadItems(Join(parts) + "]" + rest) == Some(([v] + items, rest))
  {
    JoinMore(parts, "]", rest);
    Separator(more);
  }

  lemma ItemPartsAt(items: seq<Json>, i: nat, isPrint: Printable)
    requires i < |items|
    ensures
      var parts := ItemLiterals(items, isPrint)[i..];
      && |parts| == |items| - i && parts[0] == Literal(items[i], isPrint)
      && parts[1..] == ItemLiterals(items, isPrint)[i + 1..]
      && items[i..] == [items[i]] + items[i + 1..]
      && (i == |items| - 1 ==> items[i..] == [items[i]])
  {
  }

  lemma {:induction false} ReadsItems(v: Json, i: nat, isPrint: Printable, rest: string)
    requires v.Arr? && i < |v.items| && WellFormed(v)
    ensures ReadItems(Join(ItemLiterals(v.items, isPrint)[i..]) + "]" + rest) == Some((v.items[i..], rest))
    decreases v, 0, |v.items| - i
  {
    var parts, item := ItemLiterals(v.items, isPrint)[i..], v.items[i];
    ItemPartsAt(v.items, i, isPrint);
    assert WellFormed(item);
    if i == |v.items| - 1 {
      ReadsLastItem(item, isPrint, parts, rest);
    } else {
      ReadsItems(v, i + 1, isPrint, rest);
      ReadsMoreItems(item, isPrint, parts, rest, v.items[i + 1..]);
    }
  }

  lemma {:induction false} ReadsLastItem(v: Json, isPrint: Printable, parts: seq<string>, rest: string)
    requires WellFormed(v) && |parts| == 1 && parts[0] == Literal(v, isPrint)
    ensures ReadItems(Join(parts) + "]" + rest) == Some(([v], rest))
    decreases v, 1, 1
  {
    ReadsLiteral(v, isPrint, "]" + rest);
    ItemsFromLast(v, parts, rest);
  }

  lemma {:induction false} ReadsMoreItems(v: Json, isPrint: Printable, parts: seq<string>, rest: string, items: seq<Json>)
    requires WellFormed(v) && |parts| > 1 && parts[0] == Literal(v, isPrint)
    requires ReadItems(Join(parts[1..]) + "]" + rest) == Some((items, rest))
    ensures ReadItems(Join(parts) + "]" + rest) == Some(([v] + items, rest))
    decreases v, 1, 1
  {
    var more := Join(parts[1..]) + "]" + rest;
    ReadsLiteral(v, isPrint, ", " + more);
    ItemsFromMore(v, items, parts, more, rest);
  }

  function Fields(fields: map<string, Json>, keys: seq<string>): map<string, Json> {
    map k | k in fields && k in keys :: fields[k]
  }

  /** A quoted key, its colon, and what follows. */
  function PairText(k: string, isPrint: Printable, rest: string): string { Quote(k, isPrint) + (": " + rest) }

  lemma QuoteSplit(a: string, rest: string)
    ensures ("\"" + a + "\"") + rest == "\"" + (a + "\"" + rest)
  {
  }

  lemma ReadsKey(k: string, isPrint: Printable, rest: string)
    ensures
      var s := PairText(k, isPrint, rest);
      && s[0] == '\"' && ReadChars(s[1..]) == Some((k, ": " + rest))
      && ": " <= ": " + rest && (": " + rest)[2..] == rest
  {
    var colon := ": " + rest;
    ReadsEscaped(k, isPrint, colon);
    QuoteSplit(EscapeAll(k, isPrint), colon);
    assert colon[0] == ':' && colon[1] == ' ';
  }

  lemma PairAppend(k: string, lit: string, isPrint: Printable, tail: string)
    ensures Quote(k, isPrint) + ": " + lit + tail == PairText(k, isPrint, lit + tail)
  {
    var q := Quote(k, isPrint);
    assert q + ": " + lit + tail == q + (": " + (lit + tail));
  }

  lemma FieldsStep(fields: map<string, Json>, keys: seq<string>, i: nat)
    requires i < |keys| && keys[i] in fields
    ensures Fields(fields, keys[i..]) == Fields(fields, keys[i + 1..])[keys[i] := fields[keys[i]]]
    ensures i == |keys| - 1 ==> Fields(fields, keys[i..]) == map[keys[i] := fields[keys[i]]]
  {
    assert keys[i..] == [keys[i]] + keys[i + 1..];
    if i == |keys| - 1 { assert Fields(fields, keys[i + 1..]) == map[]; }
  }

  lemma PairsFromLast(k: string, v: Json, lit: string, isPrint: Printable, parts: seq<string>, rest: string)
    requires |parts| == 1 && parts[0] == Quote(k, isPrint) + ": " + lit
    requires ReadValue(lit + ("}" + rest)) == Some((v, "}" + rest))
    ensures ReadPairs(Join(parts) + "}" + rest) == Some((map[k := v], rest))
  {
    JoinOne(parts, "}", rest);
    PairAppend(k, lit, isPrint, "}" + rest);
    ReadsKey(k, isPrint, lit + ("}" + rest));
    assert ("}" + rest)[1..] == rest;
  }

  lemma PairsFromMore(k: string, v: Json, lit: string, isPrint: Printable, fields: map<string, Json>, parts: seq<string>,
                      more: string, rest: string)
    requires |parts| > 1 && more == Join(parts[1..]) + "}" + rest && parts[0] == Quote(k, isPrint) + ": " + lit
    requires ReadValue(lit + (", " + more)) == Some((v, ", " + more)) && ReadPairs(more) == Some((fields, rest))
    ensures ReadPairs(Join(parts) + "}" + rest) == Some((fields[k := v], rest))
  {
    JoinMore(parts, "}", rest);
    PairAppend(k, lit, isPrint, ", " + more);
    ReadsKey(k, isPrint, lit + (", " + more));
    Separator(more);
  }

  lemma PairPartsAt(v: Json, i: nat, isPrint: Printable)
    requires v.Obj? && i < |SortedKeys(v.fields.Keys)|
    ensures
      var keys := SortedKeys(v.fields.Keys);
      var parts := PairLiterals(v, isPrint)[i..];
      && keys[i] in v.fields
      && |parts| == |keys| - i && parts[0] == Quote(keys[i], isPrint) + ": " + Literal(v.fields[keys[i]], isPrint)
      && parts[1..] == PairLiterals(v, isPrint)[i + 1..]
  {
    assert SortedKeys(v.fields.Keys)[i] in SortedKeys(v.fields.Keys);
  }

  lemma {:induction false} ReadsPairs(v: Json, i: nat, isPrint: Printable, rest: string)
    requires v.Obj? && i < |SortedKeys(v.fields.Keys)| && WellFormed(v)
    ensures ReadPairs(Join(PairLiterals(v, isPrint)[i..]) + "}" + rest)
         == Some((Fields(v.fields, SortedKeys(v.fields.Keys)[i..]), rest))
    decreases v, 0, |SortedKeys(v.fields.Keys)| - i
  {
    var keys := SortedKeys(v.fields.Keys);
    PairPartsAt(v, i, isPrint);
    FieldsStep(v.fields, keys, i);
    if i == |keys| - 1 {
      ReadsLiteral(v.fields[keys[i]], isPrint, "}" + rest);
      PairsFromLast(keys[i], v.fields[keys[i]], Literal(v.fields[keys[i]], isPrint), isPrint, PairLiterals(v, isPrint)[i..], rest);
    } else {
      ReadsPairs(v, i + 1, isPrint, rest);
      ReadsMorePairs(keys[i], v.fields[keys[i]], isPrint, PairLiterals(v, isPrint)[i..], rest, Fields(v.fields, keys[i + 1..]));
    }
  }

  lemma {:induction false} ReadsMorePairs(k: string, value: Json, isPrint: Printable, parts: seq<string>, rest: string,
                                          fields: map<string, Json>)
    requires WellFormed(value)
    requires |parts| > 1 && parts[0] == Quote(k, isPrint) + ": " + Literal(value, isPrint)
    requires ReadPairs(Join(parts[1..]) + "}" + rest) == Some((fields, rest))
    ensures ReadPairs(Join(parts) + "}" + rest) == Some((fields[k := value], rest))
    decreases value, 1, 1
  {
    var more := Join(parts[1..]) + "}" + rest;
    ReadsLiteral(value, isPrint, ", " + more);
    PairsFromMore(k, value, Literal(value, isPrint), isPrint, fields, parts, more, rest);
  }

  /** Every JSON tree comes back from its Python literal. */
  lemma LiteralReadsBack(v: Json, isPrint: Printable)
    requires WellFormed(v)
    ensures ReadValue(Literal(v, isPrint)) == Some((v, ""))
  {
    ReadsLiteral(v, isPrint, "");
    assert Literal(v, isPrint) + "" == Literal(v, isPrint);
  }

  lemma LiteralInjective(v: Json, w: Json, isPrint: Printable)
    requires WellFormed(v) && WellFormed(w)
    ensures Literal(v, isPrint) == Literal(w, isPrint) <==> v == w
  {
    LiteralReadsBack(v, isPrint);
    LiteralReadsBack(w, isPrint);
  }

  /* ---- One line per literal ---- */

  lemma {:induction false} JoinOnOneLine(parts: seq<string>)
    requires forall i :: 0 <= i < |parts| ==> OneLine(parts[i])
    ensures OneLine(Join(parts))
  {
    if |parts| > 1 { JoinOnOneLine(parts[1..]); }
  }

  lemma QuoteOnOneLine(s: string, isPrint: Printable)
    requires !isPrint('\n')
    ensures OneLine(Quote(s, isPrint))
  {
    QuotedOnOneLine(s, isPrint);
  }

  lemma PairOnOneLine(k: string, lit: string, isPrint: Printable)
    requires !isPrint('\n') && OneLine(lit)
    ensures OneLine(Quote(k, isPrint) + ": " + lit)
  {
    QuoteOnOneLine(k, isPrint);
  }

  lemma {:induction false} LiteralOnOneLine(v: Json, isPrint: Printable)
    requires WellFormed(v) && !isPrint('\n')
    ensures OneLine(Literal(v, isPrint))
    decreases v
  {
    match v
    case Str(s) => QuoteOnOneLine(s, isPrint);
    case Arr(items) =>
      LiteralOfItems(items, isPrint);
      forall i | 0 <= i < |items| ensures OneLine(ItemLiterals(items, isPrint)[i]) {
        LiteralOnOneLine(items[i], isPrint);
      }
      JoinOnOneLine(ItemLiterals(items, isPrint));
    case Obj(fields) =>
      LiteralOfFields(v, isPrint);
      var keys := SortedKeys(fields.Keys);
      forall i | 0 <= i < |keys| ensures OneLine(PairLiterals(v, isPrint)[i]) {
        assert keys[i] in keys;
        LiteralOnOneLine(fields[keys[i]], isPrint);
        PairOnOneLine(keys[i], Literal(fields[keys[i]], isPrint), isPrint);
      }
      JoinOnOneLine(PairLiterals(v, isPrint));
    case _ =>
  }

  /* ---- The settings module ---- */

  predicate IdentifierChar(c: char) { 'A' <= c <= 'Z' || 'a' <= c <= 'z' || c == '_' || Digit(c) }

  /** `^[A-Za-z_][A-Za-z0-9_]*$` */
  predicate Identifier(s: string) {
    s != "" && !Digit(s[0]) && forall i :: 0 <= i < |s| ==> IdentifierChar(s[i])
  }

  /** An identifier is letters, digits and underscores, by code point, and does
      not start with a digit; so it cannot end its line or its assignment. */
  lemma IdentifierIsOneWord(s: string)
    ensures
      Identifier(s) <==>
        && s != "" && !(48 <= s[0] as int <= 57)
        && forall i :: 0 <= i < |s| ==>
             48 <= s[i] as int <= 57 || 65 <= s[i] as int <= 90 || s[i] as int == 95 || 97 <= s[i] as int <= 122
    ensures Identifier(s) ==> '\n' !in s && ' ' !in s && '=' !in s && '(' !in s && ';' !in s
  {
  }

  /** A raw setting is None where it is empty or does not decode. */
  type Settings = map<string, Option<Json>>

  ghost predicate Acceptable(settings: Settings) {
    forall k :: k in settings ==> Identifier(k) && settings[k].Some?
  }

  ghost predicate AllWellFormed(settings: Settings) {
    forall k :: k in settings && settings[k].Some? ==> WellFormed(settings[k].value)
  }

  ghost function Assignment(settings: Settings, k: string, isPrint: Printable): string
    requires k in settings && settings[k].Some?
  {
    k + " = " + Literal(settings[k].value, isPrint)
  }

  ghost function Assignments(settings: Settings, keys: seq<string>, isPrint: Printable): (r: seq<string>)
    requires forall k :: k in keys ==> k in settings && settings[k].Some?
    ensures |r| == |keys| && forall i :: 0 <= i < |r| ==> r[i] == Assignment(settings, keys[i], isPrint)
  {
    if keys == [] then [] else [Assignment(settings, keys[0], isPrint)] + Assignments(settings, keys[1..], isPrint)
  }

  /** The preamble, a blank line if both parts are there, and one assignment per
      setting, by ascending name. */
  ghost function ModuleLines(preamble: seq<string>, settings: Settings, isPrint: Printable): seq<string>
    requires Acceptable(settings)
  {
    Head(preamble, |settings| > 0) + Assignments(settings, SortedKeys(settings.Keys), isPrint)
  }

  lemma {:induction false} AssignmentsAppend(settings: Settings, keys: seq<string>, k: string, isPrint: Printable)
    requires k in settings && settings[k].Some? && forall x :: x in keys ==> x in settings && settings[x].Some?
    ensures Assignments(settings, keys + [k], isPrint)
         == Assignments(settings, keys, isPrint) + [Assignment(settings, k, isPrint)]
  {
    if keys == [] {
      assert keys + [k] == [k];
    } else {
      assert (keys + [k])[1..] == keys[1..] + [k];
      AssignmentsAppend(settings, keys[1..], k, isPrint);
    }
  }

  /** One more assignment. */
  method WriteAssignment(text: string, ghost head: seq<string>, ghost done: seq<string>, k: string, settings: Settings,
                         isPrint: Printable) returns (b: string)
    requires k in settings && settings[k].Some? && forall x :: x in done ==> x in settings && settings[x].Some?
    requires text == Unlines(head + Assignments(settings, done, isPrint))
    ensures b == Unlines(head + Assignments(settings, done + [k], isPrint))
  {
    var literal := ValueToPythonLiteral(settings[k].value, isPrint);
    var line := k + " = " + literal;
    b := text + (line + "\n");
    AssignmentsAppend(settings, done, k, isPrint);
    UnlinesAppend(head + Assignments(settings, done, isPrint), [line]);
    UnlinesOne(line);
    assert head + (Assignments(settings, done, isPrint) + [line]) == head + Assignments(settings, done, isPrint) + [line];
  }

  ghost function Head(preamble: seq<string>, any: bool): seq<string> { preamble + if preamble != [] && any then [""] else [] }

  /** The assignments, after the text of the head. */
  method WriteAssignments(text: string, ghost head: seq<string>, keys: seq<string>, settings: Settings, isPrint: Printable)
    returns (r: Option<string>)
    requires text == Unlines(head) && forall k :: k in keys ==> k in settings
    ensures r.Some? <==> forall k :: k in keys ==> settings[k].Some?
    ensures r.Some? ==> r.value == Unlines(head + Assignments(settings, keys, isPrint))
  {
    var b := text;
    ghost var done: seq<string> := [];
    assert head + [] == head;
    for i := 0 to |keys|
      invariant done == keys[..i] && forall k :: k in done ==> k in settings && settings[k].Some?
      invariant b == Unlines(head + Assignments(settings, done, isPrint))
    {
      var k := keys[i];
      assert k in keys;
      if settings[k] == None { return None; }
      b := WriteAssignment(b, head, done, k, settings, isPrint);
      done := done + [k];
    }
    assert done == keys;
    return Some(b);
  }

  /** An error for an invalid name or an undecodable value, and for nothing else. */
  method Render(preamble: seq<string>, settings: Settings, isPrint: Printable) returns (r: Option<string>)
    ensures r.Some? <==> Acceptable(settings)
    ensures r.Some? ==> r.value == Unlines(ModuleLines(preamble, settings, isPrint))
  {
    var b := WritePreamble(preamble, |settings| > 0);
    var valid := ValidNames(settings);
    if !valid { return None; }
    var keys := CollectSorted(settings.Keys);
    r := WriteAssignments(b, Head(preamble, |settings| > 0), keys, settings, isPrint);
  }

  method WritePreamble(preamble: seq<string>, any: bool) returns (b: string)
    ensures b == Unlines(Head(preamble, any))
  {
    b := "";
    for i := 0 to |preamble|
      invariant b == Unlines(preamble[..i])
    {
      assert preamble[..i + 1] == preamble[..i] + [preamble[i]];
      UnlinesAppend(preamble[..i], [preamble[i]]);
      UnlinesOne(preamble[i]);
      b := b + (preamble[i] + "\n");
    }
    assert preamble[..|preamble|] == preamble;
    UnlinesAppend(preamble, [""]);
    UnlinesOne("");
    if |preamble| > 0 && any { b := b + "\n"; } else { assert preamble + [] == preamble; }
  }

  method ValidNames(settings: Settings) returns (valid: bool)
    ensures valid <==> forall k :: k in settings ==> Identifier(k)
  {
    var left := settings.Keys;
    while left != {}
      invariant left <= settings.Keys && forall k :: k in settings.Keys - left ==> Identifier(k)
      decreases left
    {
      var k :| k in left;
      if !Identifier(k) { return false; }
      left := left - {k};
    }
    return true;
  }

  lemma AssignmentsOfOne(settings: Settings, k: string, v: Json, isPrint: Printable)
    requires settings.Keys == {k} && settings[k] == Some(v) && Identifier(k)
    ensures Acceptable(settings) && ModuleLines([], settings, isPrint) == [k + " = " + Literal(v, isPrint)]
  {
    OneKey(k);
    assert Assignments(settings, [k], isPrint) == [k + " = " + Literal(v, isPrint)];
  }

  /** A file is its preamble, an empty line where settings follow, and the
      settings, "name = literal" each. */
  lemma ModuleShapes(preamble: seq<string>, settings: Settings, k: string, v: Json, isPrint: Printable)
    requires settings.Keys == {k} && settings[k] == Some(v) && Identifier(k)
    ensures Acceptable(settings) && ModuleLines([], settings, isPrint) == [k + " = " + Literal(v, isPrint)]
    ensures preamble != [] ==> ModuleLines(preamble, settings, isPrint) == preamble + [""] + [k + " = " + Literal(v, isPrint)]
    ensures ModuleLines(preamble, map[], isPrint) == preamble
  {
    AssignmentsOfOne(settings, k, v, isPrint);
    assert k in settings;
    NoKeys();
  }

  function SpaceAt(line: string): (n: nat)
    ensures n <= |line| && (forall i :: 0 <= i < n ==> line[i] != ' ') && (n < |line| ==> line[n] == ' ')
  {
    if line == "" || line[0] == ' ' then 0 else 1 + SpaceAt(line[1..])
  }

  /** The name and the value of an assignment. */
  function ReadAssignment(line: string): Option<(string, Json)> {
    var n := SpaceAt(line);
    if !(" = " <= line[n..]) then None
    else
      var v := ReadValue(line[n + 3..]);
      if v == None || v.value.1 != "" then None else Some((line[..n], v.value.0))
  }

  lemma SpaceAfterName(k: string, rest: string)
    requires Identifier(k)
    ensures SpaceAt(k + " = " + rest) == |k|
  {
    var line := k + " = " + rest;
    assert line[|k|] == ' ';
    assert forall i :: 0 <= i < |k| ==> line[i] == k[i];
  }

  lemma AssignmentReadsBack(settings: Settings, k: string, isPrint: Printable)
    requires k in settings && settings[k].Some? && Identifier(k) && WellFormed(settings[k].value)
    ensures ReadAssignment(Assignment(settings, k, isPrint)) == Some((k, settings[k].value))
  {
    var lit := Literal(settings[k].value, isPrint);
    var line := Assignment(settings, k, isPrint);
    SpaceAfterName(k, lit);
    assert line[..|k|] == k && line[|k|..] == " = " + lit && line[|k| + 3..] == lit;
    LiteralReadsBack(settings[k].value, isPrint);
  }

  lemma AssignmentOnOneLine(settings: Settings, k: string, isPrint: Printable)
    requires k in settings && settings[k].Some? && Identifier(k) && WellFormed(settings[k].value) && !isPrint('\n')
    ensures OneLine(Assignment(settings, k, isPrint))
  {
    LiteralOnOneLine(settings[k].value, isPrint);
    assert forall l :: 0 <= l < |k| ==> k[l] != '\n';
  }

  lemma AppendSplits(a: seq<string>, b: seq<string>)
    requires AllOneLine(a) && AllOneLine(b)
    ensures Lines(Unlines(a + b)) == a + b
  {
    LinesUnlines(a + b);
  }

  lemma HeadOnOneLine(preamble: seq<string>, any: bool)
    requires AllOneLine(preamble)
    ensures AllOneLine(Head(preamble, any))
  {
  }

  lemma AssignmentsOnOneLine(settings: Settings, isPrint: Printable)
    requires Acceptable(settings) && AllWellFormed(settings) && !isPrint('\n')
    ensures AllOneLine(Assignments(settings, SortedKeys(settings.Keys), isPrint))
  {
    var keys := SortedKeys(settings.Keys);
    var own := Assignments(settings, keys, isPrint);
    forall j | 0 <= j < |own| ensures OneLine(own[j]) {
      assert keys[j] in keys;
      AssignmentOnOneLine(settings, keys[j], isPrint);
    }
  }

  lemma ModuleSplits(preamble: seq<string>, settings: Settings, isPrint: Printable)
    requires Acceptable(settings) && AllWellFormed(settings) && !isPrint('\n') && AllOneLine(preamble)
    ensures Lines(Unlines(ModuleLines(preamble, settings, isPrint))) == ModuleLines(preamble, settings, isPrint)
  {
    HeadOnOneLine(preamble, |settings| > 0);
    AssignmentsOnOneLine(settings, isPrint);
    AppendSplits(Head(preamble, |settings| > 0), Assignments(settings, SortedKeys(settings.Keys), isPrint));
  }

  /** Where the assignments start. */
  function Start(preamble: seq<string>): nat { |preamble| + if preamble != [] then 1 else 0 }

  lemma ModuleLinesAt(preamble: seq<string>, settings: Settings, isPrint: Printable, i: nat)
    requires Acceptable(settings) && i < |SortedKeys(settings.Keys)| && |settings| > 0
    ensures
      var lines := ModuleLines(preamble, settings, isPrint);
      && |lines| == Start(preamble) + |SortedKeys(settings.Keys)| && lines[..|preamble|] == preamble
      && lines[Start(preamble) + i] == Assignments(settings, SortedKeys(settings.Keys), isPrint)[i]
  {
  }

  lemma KeysCount(settings: Settings)
    ensures |SortedKeys(settings.Keys)| == |settings|
  {
    SortedKeysSorted(settings.Keys);
    EnumerationSize(SortedKeys(settings.Keys), settings.Keys);
    assert |settings.Keys| == |settings|;
  }

  /** The rendered file has exactly these lines: after the preamble, the i-th one
      assigns the i-th setting by name, and reads back as it. */
  lemma OneLinePerSetting(preamble: seq<string>, settings: Settings, isPrint: Printable, i: nat)
    requires Acceptable(settings) && AllWellFormed(settings)
    requires !isPrint('\n') && AllOneLine(preamble)
    requires i < |settings|
    ensures
      var lines := Lines(Unlines(ModuleLines(preamble, settings, isPrint)));
      var keys := SortedKeys(settings.Keys);
      && Sorted(keys, Less) && |keys| == |settings|
      && |lines| == Start(preamble) + |settings| && lines[..|preamble|] == preamble
      && keys[i] in settings
      && ReadAssignment(lines[Start(preamble) + i]) == Some((keys[i], settings[keys[i]].value))
  {
    var keys := SortedKeys(settings.Keys);
    SortedKeysSorted(settings.Keys);
    KeysCount(settings);
    ModuleSplits(preamble, settings, isPrint);
    ModuleLinesAt(preamble, settings, isPrint, i);
    assert keys[i] in keys;
    AssignmentReadsBack(settings, keys[i], isPrint);
  }

  lemma {:induction false} EnumerationSize(s: seq<string>, elements: set<string>)
    requires Enumerates(s, elements)
    ensures |s| == |elements|
  {
    if s == [] {
      assert elements == {} by { assert forall x :: x in elements ==> x in s; }
    } else {
      assert s[0] in elements;
      assert forall x :: x in s[1..] <==> x in elements && x != s[0];
      EnumerationSize(s[1..], elements - {s[0]});
    }
  }
}
