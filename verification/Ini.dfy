/** Rendering oslo.config INI files, and reading them back. */
module Ini {
  import opened Options
  import opened Sorting
  import opened Text

  type Section = map<string, seq<string>>
  type Sections = map<string, Section>

  /* ---- Rendering ---- */

  function KeyLines(k: string, values: seq<string>): seq<string> {
    if values == [] then [] else [k + " = " + values[0]] + KeyLines(k, values[1..])
  }

  function BodyLines(keys: seq<string>, section: Section): seq<string>
    requires forall k :: k in keys ==> k in section
  {
    if keys == [] then [] else KeyLines(keys[0], section[keys[0]]) + BodyLines(keys[1..], section)
  }

  function Header(name: string): string { "[" + name + "]" }

  ghost function SectionLines(name: string, section: Section): seq<string> {
    [Header(name)] + BodyLines(SortedKeys(section.Keys), section)
  }

  /** Every section after the first is set off by an empty line. */
  ghost function FileLines(names: seq<string>, sections: Sections, first: bool): seq<string>
    requires forall n :: n in names ==> n in sections
  {
    if names == [] then []
    else Gap(first) + SectionLines(names[0], sections[names[0]]) + FileLines(names[1..], sections, false)
  }

  ghost function Rendered(sections: Sections): string {
    Unlines(FileLines(SortedKeys(sections.Keys), sections, true))
  }

  function Lifted(sections: map<string, map<string, string>>): Sections {
    map name | name in sections :: map k | k in sections[name] :: [sections[name][k]]
  }

  lemma {:induction false} KeyLinesAppend(k: string, values: seq<string>, v: string)
    ensures KeyLines(k, values + [v]) == KeyLines(k, values) + [k + " = " + v]
  {
    if values == [] {
      assert values + [v] == [v];
    } else {
      assert (values + [v])[1..] == values[1..] + [v];
      KeyLinesAppend(k, values[1..], v);
    }
  }

  lemma {:induction false} BodyLinesAppend(keys: seq<string>, k: string, section: Section)
    requires k in section && forall x :: x in keys ==> x in section
    ensures BodyLines(keys + [k], section) == BodyLines(keys, section) + KeyLines(k, section[k])
  {
    if keys == [] {
      assert keys + [k] == [k];
      assert BodyLines([k], section) == KeyLines(k, section[k]) + BodyLines([], section);
    } else {
      assert (keys + [k])[1..] == keys[1..] + [k];
      BodyLinesAppend(keys[1..], k, section);
    }
  }

  function Gap(first: bool): seq<string> { if first then [] else [""] }

  lemma AssocLines(a: seq<string>, b: seq<string>, c: seq<string>)
    ensures a + b + c == a + (b + c)
  {
  }

  lemma {:induction false} FileLinesAppend(names: seq<string>, n: string, sections: Sections, first: bool)
    requires n in sections && forall x :: x in names ==> x in sections
    ensures FileLines(names + [n], sections, first)
         == FileLines(names, sections, first) + (Gap(first && names == []) + SectionLines(n, sections[n]))
  {
    var own := SectionLines(n, sections[n]);
    if names == [] {
      assert names + [n] == [n];
      assert FileLines([n], sections, first) == Gap(first) + own + [];
    } else {
      assert (names + [n])[1..] == names[1..] + [n];
      FileLinesAppend(names[1..], n, sections, false);
      AssocLines(Gap(first) + SectionLines(names[0], sections[names[0]]), FileLines(names[1..], sections, false), Gap(false) + own);
    }
  }

  /** The values of one key, one line each. */
  method RenderKey(text: string, ghost lines: seq<string>, k: string, values: seq<string>) returns (b: string)
    requires text == Unlines(lines)
    ensures b == Unlines(lines + KeyLines(k, values))
  {
    b := text;
    ghost var done: seq<string> := [];
    assert lines + [] == lines;
    for j := 0 to |values|
      invariant done == values[..j]
      invariant b == Unlines(lines + KeyLines(k, done))
    {
      var line := k + " = " + values[j];
      KeyLinesAppend(k, done, values[j]);
      UnlinesAppend(lines + KeyLines(k, done), [line]);
      UnlinesOne(line);
      AssocLines(lines, KeyLines(k, done), [line]);
      b := b + (line + "\n");
      done := done + [values[j]];
    }
    assert done == values;
  }

  /** One section, written as it goes. */
  method RenderSection(name: string, section: Section) returns (b: string)
    ensures b == Unlines(SectionLines(name, section))
  {
    b := "[" + name + "]\n";
    var keys := CollectSorted(section.Keys);
    ghost var done: seq<string> := [];
    ghost var head := [Header(name)];
    assert head + [] == head && b == Unlines(head);
    for i := 0 to |keys|
      invariant done == keys[..i] && forall x :: x in done ==> x in section
      invariant b == Unlines(head + BodyLines(done, section))
    {
      var k := keys[i];
      assert k in keys;
      b := RenderKey(b, head + BodyLines(done, section), k, section[k]);
      BodyLinesAppend(done, k, section);
      AssocLines(head, BodyLines(done, section), KeyLines(k, section[k]));
      done := done + [k];
    }
    assert done == keys;
  }

  ghost function FileText(names: seq<string>, sections: Sections): string
    requires forall x :: x in names ==> x in sections
  {
    Unlines(FileLines(names, sections, true))
  }

  lemma GapText(first: bool, own: seq<string>)
    ensures Unlines(Gap(first) + own) == if first then Unlines(own) else "\n" + Unlines(own)
  {
    if first {
      assert [] + own == own;
    } else {
      assert ([""] + own)[1..] == own;
    }
  }

  lemma FileTextAppend(names: seq<string>, n: string, sections: Sections)
    requires n in sections && forall x :: x in names ==> x in sections
    ensures
      var own := Unlines(SectionLines(n, sections[n]));
      FileText(names + [n], sections) == FileText(names, sections) + if names == [] then own else "\n" + own
  {
    FileLinesAppend(names, n, sections, true);
    GapText(names == [], SectionLines(n, sections[n]));
    UnlinesAppend(FileLines(names, sections, true), Gap(names == []) + SectionLines(n, sections[n]));
  }

  /** The next section, after its gap. */
  method AppendSection(text: string, ghost names: seq<string>, first: bool, n: string, sections: Sections) returns (b: string)
    requires n in sections && (forall x :: x in names ==> x in sections) && (first <==> names == [])
    requires text == FileText(names, sections)
    ensures b == FileText(names + [n], sections)
  {
    var own := RenderSection(n, sections[n]);
    FileTextAppend(names, n, sections);
    if first { return text + own; }
    b := text + ("\n" + own);
  }

  method RenderINIMulti(sections: Sections) returns (b: string)
    ensures b == Rendered(sections)
  {
    var names := CollectSorted(sections.Keys);
    b := "";
    for i := 0 to |names|
      invariant b == FileText(names[..i], sections)
    {
      assert names[i] in names;
      b := AppendSection(b, names[..i], i == 0, names[i], sections);
      assert names[..i + 1] == names[..i] + [names[i]];
    }
    assert names[..|names|] == names;
  }

  method LiftSections(sections: map<string, map<string, string>>) returns (out: Sections)
    ensures out == Lifted(sections)
  {
    out := map[];
    var left := sections.Keys;
    while left != {}
      invariant left <= sections.Keys && out.Keys == sections.Keys - left
      invariant forall n :: n in out ==> out[n] == Lifted(sections)[n]
      decreases left
    {
      var name :| name in left;
      left := left - {name};
      var lifted: Section := map[];
      var keys := sections[name].Keys;
      while keys != {}
        invariant keys <= sections[name].Keys && lifted.Keys == sections[name].Keys - keys
        invariant forall k :: k in lifted ==> lifted[k] == [sections[name][k]]
        decreases keys
      {
        var k :| k in keys;
        keys := keys - {k};
        lifted := lifted[k := [sections[name][k]]];
      }
      out := out[name := lifted];
    }
  }

  method RenderINI(sections: map<string, map<string, string>>) returns (b: string)
    ensures b == Rendered(Lifted(sections))
  {
    var lifted := LiftSections(sections);
    b := RenderINIMulti(lifted);
  }

  lemma BodyOfOne(k: string, section: Section)
    requires k in section
    ensures BodyLines([k], section) == KeyLines(k, section[k])
  {
    assert BodyLines([k], section) == KeyLines(k, section[k]) + [];
  }

  /** A section is its name in brackets and a line "key = value" for each value
      in order; a key without values leaves no line. */
  lemma SectionOfOne(name: string, section: Section, k: string)
    requires section.Keys == {k}
    ensures |SectionLines(name, section)| == 1 + |section[k]| && SectionLines(name, section)[0] == "[" + name + "]"
    ensures forall i :: 0 <= i < |section[k]| ==> SectionLines(name, section)[i + 1] == k + " = " + section[k][i]
  {
    OneKey(k);
    BodyOfOne(k, section);
    KeyLinesAt(k, section[k]);
  }

  lemma {:induction false} KeyLinesAt(k: string, values: seq<string>)
    ensures |KeyLines(k, values)| == |values|
    ensures forall i :: 0 <= i < |values| ==> KeyLines(k, values)[i] == k + " = " + values[i]
  {
    if values != [] { KeyLinesAt(k, values[1..]); }
  }

  lemma BodyOfTwo(k: string, l: string, section: Section)
    requires k in section && l in section
    ensures BodyLines([k, l], section) == KeyLines(k, section[k]) + KeyLines(l, section[l])
  {
    BodyOfOne(k, section);
    BodyLinesAppend([k], l, section);
    assert [k] + [l] == [k, l];
  }

  lemma SectionBody(name: string, section: Section, k: string)
    requires section.Keys == {k}
    ensures SectionLines(name, section)[1..] == KeyLines(k, section[k])
  {
    OneKey(k);
    BodyOfOne(k, section);
  }

  /** The keys of a section follow in ascending order. */
  lemma SectionOfTwo(name: string, section: Section, one: Section, other: Section, k: string, l: string, n: int)
    requires section.Keys == {k, l} && FirstDifference(k, l, n)
    requires one.Keys == {k} && one[k] == section[k] && other.Keys == {l} && other[l] == section[l]
    ensures SectionLines(name, section) == ["[" + name + "]"] + (SectionLines(name, one)[1..] + SectionLines(name, other)[1..])
  {
    TwoKeys(k, l, n);
    BodyOfTwo(k, l, section);
    SectionBody(name, one, k);
    SectionBody(name, other, l);
  }

  lemma FileOfOne(sections: Sections, s: string)
    requires sections.Keys == {s}
    ensures Rendered(sections) == Unlines(SectionLines(s, sections[s]))
  {
    OneKey(s);
    FileTextOfOne(sections, s);
  }

  lemma FileTextOfOne(sections: Sections, s: string)
    requires s in sections
    ensures FileText([s], sections) == Unlines(SectionLines(s, sections[s]))
  {
    FileTextAppend([], s, sections);
    assert [] + [s] == [s];
  }

  /** The text of a file: nothing without sections, its sections in ascending
      order otherwise, with an empty line between two of them. */
  lemma FileOfTwo(sections: Sections, s: string, t: string, n: int)
    requires sections.Keys == {s, t} && FirstDifference(s, t, n)
    ensures Rendered(map[]) == ""
    ensures Rendered(sections) == Unlines(SectionLines(s, sections[s])) + ("\n" + Unlines(SectionLines(t, sections[t])))
  {
    NoKeys();
    TwoKeys(s, t, n);
    FileTextOfOne(sections, s);
    FileTextAppend([s], t, sections);
    assert [s] + [t] == [s, t];
  }

  lemma UnlinesShapes(line: string, lines: seq<string>)
    ensures Unlines([]) == "" && Unlines([line] + lines) == line + "\n" + Unlines(lines)
  {
    assert ([line] + lines)[1..] == lines;
  }

  /* ---- Reading ---- */

  datatype Reader = Reader(sections: Sections, current: string)

  function EqualsAt(line: string): (n: nat)
    ensures n <= |line| && (forall i :: 0 <= i < n ==> line[i] != '=') && (n < |line| ==> line[n] == '=')
  {
    if line == "" || line[0] == '=' then 0 else 1 + EqualsAt(line[1..])
  }

  function Add(section: Section, k: string, v: string): Section {
    section[k := (if k in section then section[k] else []) + [v]]
  }

  /** An empty line, a header, or a key with one more value: the key ends before
      the first equals sign, and one space on either side of it is dropped. */
  function Read(r: Reader, line: string): Reader {
    if line == "" then r
    else if line[0] == '[' then
      var name := line[1..if |line| > 1 then |line| - 1 else 1];
      Reader(if name in r.sections then r.sections else r.sections[name := map[]], name)
    else
      var e := EqualsAt(line);
      if e == 0 || |line| < e + 2 || r.current !in r.sections then r
      else r.(sections := r.sections[r.current := Add(r.sections[r.current], line[..e - 1], line[e + 2..])])
  }

  function ReadLines(r: Reader, lines: seq<string>): Reader
    decreases lines
  {
    if lines == [] then r else ReadLines(Read(r, lines[0]), lines[1..])
  }

  function Parse(text: string): Sections { ReadLines(Reader(map[], ""), Lines(text)).sections }

  /** The sections without the keys that have no value. */
  function Valued(section: Section): Section { map k | k in section && section[k] != [] :: section[k] }

  function NonEmpty(sections: Sections): Sections { map n | n in sections :: Valued(sections[n]) }

  /** Names and values on one line; keys a reader can tell from headers and from
      their values. */
  ghost predicate Renderable(sections: Sections) {
    forall n :: n in sections ==> OneLine(n) && SectionRenderable(sections[n])
  }

  ghost predicate SectionRenderable(section: Section) {
    forall k :: k in section ==>
      && OneLine(k) && '=' !in k && (k == "" || k[0] != '[')
      && forall i :: 0 <= i < |section[k]| ==> OneLine(section[k][i])
  }

  lemma {:induction false} ReadLinesAppend(r: Reader, a: seq<string>, b: seq<string>)
    ensures ReadLines(r, a + b) == ReadLines(ReadLines(r, a), b)
    decreases a
  {
    if a == [] {
      assert a + b == b;
    } else {
      assert (a + b)[1..] == a[1..] + b;
      ReadLinesAppend(Read(r, a[0]), a[1..], b);
    }
  }

  /** The reader with its current section replaced. */
  function With(r: Reader, section: Section): Reader { r.(sections := r.sections[r.current := section]) }

  lemma WithTwice(r: Reader, a: Section, b: Section)
    ensures With(With(r, a), b) == With(r, b)
  {
    assert r.sections[r.current := a][r.current := b] == r.sections[r.current := b];
  }

  lemma WithSame(r: Reader)
    requires r.current in r.sections
    ensures With(r, r.sections[r.current]) == r
  {
    assert r.sections[r.current := r.sections[r.current]] == r.sections;
  }

  lemma ReadsKeyLine(r: Reader, k: string, v: string)
    requires '=' !in k && (k == "" || k[0] != '[') && r.current in r.sections
    ensures Read(r, k + " = " + v) == With(r, Add(r.sections[r.current], k, v))
  {
    var line := k + " = " + v;
    assert line[|k| + 1] == '=';
    forall i | 0 <= i < |k| + 1 ensures line[i] != '=' {
      if i < |k| { assert line[i] == k[i] && k[i] in k; }
    }
    assert EqualsAt(line) == |k| + 1;
    assert line[..|k|] == k && line[|k| + 3..] == v;
  }

  function AddAll(section: Section, k: string, values: seq<string>): Section
    decreases values
  {
    if values == [] then section else AddAll(Add(section, k, values[0]), k, values[1..])
  }

  lemma {:induction false} AddAllAppends(section: Section, k: string, values: seq<string>)
    requires values != []
    ensures AddAll(section, k, values) == section[k := (if k in section then section[k] else []) + values]
    decreases values
  {
    var had := if k in section then section[k] else [];
    var one := Add(section, k, values[0]);
    if |values| == 1 {
      assert values == [values[0]];
      assert AddAll(one, k, values[1..]) == one;
    } else {
      AddAllAppends(one, k, values[1..]);
      assert had + [values[0]] + values[1..] == had + values;
      assert section[k := had + [values[0]]][k := had + values] == section[k := had + values];
    }
  }

  /** The lines of one key add its values, in order. */
  lemma {:induction false} ReadsKey(r: Reader, k: string, values: seq<string>)
    requires '=' !in k && (k == "" || k[0] != '[') && r.current in r.sections
    ensures ReadLines(r, KeyLines(k, values)) == With(r, AddAll(r.sections[r.current], k, values))
    decreases values
  {
    if values == [] {
      WithSame(r);
    } else {
      var section := r.sections[r.current];
      ReadsKeyLine(r, k, values[0]);
      var r1 := With(r, Add(section, k, values[0]));
      ReadsKey(r1, k, values[1..]);
      WithTwice(r, Add(section, k, values[0]), AddAll(section, k, values));
    }
  }

  function AddBody(section: Section, keys: seq<string>, from: Section): Section
    requires forall k :: k in keys ==> k in from
    decreases keys
  {
    if keys == [] then section else AddBody(AddAll(section, keys[0], from[keys[0]]), keys[1..], from)
  }

  function Restrict(section: Section, keys: seq<string>): Section {
    map k | k in section && k in keys && section[k] != [] :: section[k]
  }

  lemma RestrictStep(section: Section, keys: seq<string>, from: Section)
    requires keys != [] && keys[0] in from && keys[0] !in section && keys[0] !in keys[1..]
    ensures
      var one := if from[keys[0]] == [] then section else section[keys[0] := from[keys[0]]];
      one + Restrict(from, keys[1..]) == section + Restrict(from, keys)
  {
    assert keys == [keys[0]] + keys[1..];
    assert forall k :: k in keys <==> k == keys[0] || k in keys[1..];
  }

  lemma {:induction false} AddBodyIsUnion(section: Section, keys: seq<string>, from: Section)
    requires forall k :: k in keys ==> k in from && k !in section
    requires forall i, j :: 0 <= i < j < |keys| ==> keys[i] != keys[j]
    ensures AddBody(section, keys, from) == section + Restrict(from, keys)
    decreases keys
  {
    if keys == [] {
      assert section + Restrict(from, keys) == section;
    } else {
      var k := keys[0];
      var one := AddAll(section, k, from[k]);
      assert one == if from[k] == [] then section else section[k := from[k]] by {
        if from[k] != [] {
          AddAllAppends(section, k, from[k]);
          assert [] + from[k] == from[k];
        }
      }
      RestrictStep(section, keys, from);
      AddBodyIsUnion(one, keys[1..], from);
    }
  }

  /** The lines of some keys add those of them that have values. */
  lemma {:induction false} ReadsBody(r: Reader, keys: seq<string>, section: Section)
    requires SectionRenderable(section) && r.current in r.sections
    requires forall k :: k in keys ==> k in section
    ensures ReadLines(r, BodyLines(keys, section)) == With(r, AddBody(r.sections[r.current], keys, section))
    decreases keys
  {
    var s := r.sections[r.current];
    if keys == [] {
      WithSame(r);
    } else {
      var k := keys[0];
      var one := AddAll(s, k, section[k]);
      ReadLinesAppend(r, KeyLines(k, section[k]), BodyLines(keys[1..], section));
      ReadsKey(r, k, section[k]);
      ReadsBody(With(r, one), keys[1..], section);
      WithTwice(r, one, AddBody(one, keys[1..], section));
    }
  }

  lemma ReadsHeader(r: Reader, name: string)
    requires name !in r.sections
    ensures Read(r, Header(name)) == Reader(r.sections[name := map[]], name)
  {
    var line := Header(name);
    assert line[0] == '[' && line[1..|line| - 1] == name;
  }

  lemma RestrictWhole(section: Section, keys: seq<string>)
    requires forall k :: k in section ==> k in keys
    ensures Restrict(section, keys) == Valued(section)
  {
  }

  lemma AddWholeBody(section: Section, keys: seq<string>)
    requires Enumerates(keys, section.Keys)
    ensures AddBody(map[], keys, section) == Valued(section)
  {
    AddBodyIsUnion(map[], keys, section);
    RestrictWhole(section, keys);
    assert map[] + Valued(section) == Valued(section);
  }

  lemma ReadsSectionBody(r: Reader, keys: seq<string>, section: Section)
    requires SectionRenderable(section) && Enumerates(keys, section.Keys)
    requires r.current in r.sections && r.sections[r.current] == map[]
    ensures ReadLines(r, BodyLines(keys, section)) == With(r, Valued(section))
  {
    ReadsBody(r, keys, section);
    AddWholeBody(section, keys);
  }

  lemma ReadLinesFirst(r: Reader, line: string, rest: seq<string>)
    ensures ReadLines(r, [line] + rest) == ReadLines(Read(r, line), rest)
  {
    assert ([line] + rest)[1..] == rest;
  }

  lemma ReadsSection(r: Reader, name: string, section: Section)
    requires SectionRenderable(section) && name !in r.sections
    ensures ReadLines(r, SectionLines(name, section)) == Reader(r.sections[name := Valued(section)], name)
  {
    var keys := SortedKeys(section.Keys);
    SortedKeysSorted(section.Keys);
    var r1 := Reader(r.sections[name := map[]], name);
    ReadsHeader(r, name);
    ReadLinesFirst(r, Header(name), BodyLines(keys, section));
    ReadsSectionBody(r1, keys, section);
    WithTwice(Reader(r.sections, name), map[], Valued(section));
  }

  function AddFile(sections: Sections, names: seq<string>, from: Sections): Sections
    requires forall n :: n in names ==> n in from
    decreases names
  {
    if names == [] then sections else AddFile(sections[names[0] := Valued(from[names[0]])], names[1..], from)
  }

  lemma {:induction false} AddFileIsUnion(sections: Sections, names: seq<string>, from: Sections)
    requires forall n :: n in names ==> n in from
    ensures AddFile(sections, names, from).Keys == sections.Keys + (set n | n in names)
    ensures forall n :: n in AddFile(sections, names, from) ==>
              AddFile(sections, names, from)[n] == if n in names then Valued(from[n]) else sections[n]
    decreases names
  {
    if names != [] {
      AddFileIsUnion(sections[names[0] := Valued(from[names[0]])], names[1..], from);
      assert names == [names[0]] + names[1..];
    }
  }

  lemma ReadLinesGap(r: Reader, first: bool, own: seq<string>, rest: seq<string>)
    ensures ReadLines(r, Gap(first) + own + rest) == ReadLines(ReadLines(r, own), rest)
  {
    ReadLinesAppend(r, own, rest);
    if first {
      assert [] + own == own;
    } else {
      ReadLinesFirst(r, "", own);
      ReadLinesAppend(r, [""] + own, rest);
    }
  }

  lemma {:induction false} ReadsFile(r: Reader, names: seq<string>, sections: Sections, first: bool)
    requires Renderable(sections)
    requires forall n :: n in names ==> n in sections && n !in r.sections
    requires forall i, j :: 0 <= i < j < |names| ==> names[i] != names[j]
    ensures ReadLines(r, FileLines(names, sections, first)).sections == AddFile(r.sections, names, sections)
    decreases names
  {
    if names != [] {
      var n := names[0];
      ReadLinesGap(r, first, SectionLines(n, sections[n]), FileLines(names[1..], sections, false));
      ReadsSection(r, n, sections[n]);
      ReadsFile(Reader(r.sections[n := Valued(sections[n])], n), names[1..], sections, false);
    }
  }

  lemma {:induction false} KeyLinesOneLine(k: string, values: seq<string>)
    requires OneLine(k) && forall i :: 0 <= i < |values| ==> OneLine(values[i])
    ensures forall line :: line in KeyLines(k, values) ==> OneLine(line)
  {
    if values != [] { KeyLinesOneLine(k, values[1..]); }
  }

  lemma {:induction false} BodyLinesOneLine(keys: seq<string>, section: Section)
    requires SectionRenderable(section) && forall k :: k in keys ==> k in section
    ensures forall line :: line in BodyLines(keys, section) ==> OneLine(line)
  {
    if keys != [] {
      KeyLinesOneLine(keys[0], section[keys[0]]);
      BodyLinesOneLine(keys[1..], section);
    }
  }

  lemma {:induction false} FileLinesOneLine(names: seq<string>, sections: Sections, first: bool)
    requires Renderable(sections) && forall n :: n in names ==> n in sections
    ensures forall line :: line in FileLines(names, sections, first) ==> OneLine(line)
  {
    if names != [] {
      BodyLinesOneLine(SortedKeys(sections[names[0]].Keys), sections[names[0]]);
      FileLinesOneLine(names[1..], sections, false);
    }
  }

  lemma AddWholeFile(names: seq<string>, sections: Sections)
    requires Enumerates(names, sections.Keys)
    ensures AddFile(map[], names, sections) == NonEmpty(sections)
  {
    AddFileIsUnion(map[], names, sections);
  }

  lemma ReadsWholeFile(names: seq<string>, sections: Sections)
    requires Renderable(sections) && Enumerates(names, sections.Keys)
    ensures ReadLines(Reader(map[], ""), FileLines(names, sections, true)).sections == NonEmpty(sections)
  {
    ReadsFile(Reader(map[], ""), names, sections, true);
    AddWholeFile(names, sections);
  }

  /** Reading a rendered file gives back every section, with exactly the keys
      that have values, and their values in order. */
  lemma ParseRendered(sections: Sections)
    requires Renderable(sections)
    ensures Parse(Rendered(sections)) == NonEmpty(sections)
  {
    var names := SortedKeys(sections.Keys);
    SortedKeysSorted(sections.Keys);
    FileLinesOneLine(names, sections, true);
    assert AllOneLine(FileLines(names, sections, true));
    LinesUnlines(FileLines(names, sections, true));
    ReadsWholeFile(names, sections);
  }

  lemma LiftedIsValued(sections: map<string, map<string, string>>)
    ensures NonEmpty(Lifted(sections)) == Lifted(sections)
  {
    forall n | n in sections ensures Valued(Lifted(sections)[n]) == Lifted(sections)[n] {}
  }

  /** A single-valued file comes back value for value. */
  lemma ParseRenderedSingle(sections: map<string, map<string, string>>)
    requires Renderable(Lifted(sections))
    ensures Parse(Rendered(Lifted(sections))) == Lifted(sections)
  {
    ParseRendered(Lifted(sections));
    LiftedIsValued(sections);
  }
}
