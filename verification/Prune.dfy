/** Pruning the history of content-addressed objects. */
module Prune {
  import opened Options
  import opened Sorting

  /** `controller` is the uid of the controlling owner, if there is one. */
  datatype Object = Object(name: string, created: int, controller: Option<nat>)

  datatype PruneOptions = PruneOptions(baseName: string, currentName: string, retain: int)

  function Prefix(opts: PruneOptions): string { opts.baseName + "-" }

  predicate Candidate(o: Object, opts: PruneOptions, owner: nat) {
    Prefix(opts) <= o.name && o.name != opts.currentName && o.controller == Some(owner)
  }

  /** Newest first, and by descending name within one second. */
  predicate Newer(a: Object, b: Object) {
    a.created > b.created || (a.created == b.created && Less(b.name, a.name))
  }

  lemma NewerStrict()
    ensures StrictOrder(Newer)
  {
    forall a ensures !Newer(a, a) { LessIrreflexive(a.name); }
    forall a, b, c | Newer(a, b) && Newer(b, c) ensures Newer(a, c) {
      if a.created == b.created == c.created { LessTransitive(c.name, b.name, a.name); }
    }
  }

  /** Names are unique in a namespace. */
  ghost predicate NamesUnique(items: seq<Object>) {
    forall i, j :: 0 <= i < j < |items| ==> items[i].name != items[j].name
  }

  lemma UniqueComparable(items: seq<Object>)
    requires NamesUnique(items)
    ensures Comparable(items, Newer)
  {
    forall i, j | 0 <= i < j < |items| ensures Newer(items[i], items[j]) || Newer(items[j], items[i]) {
      LessTotal(items[i].name, items[j].name);
    }
  }

  function Candidates(items: seq<Object>, opts: PruneOptions, owner: nat): (r: seq<Object>)
    ensures forall o :: o in r <==> o in items && Candidate(o, opts, owner)
  {
    if items == [] then []
    else (if Candidate(items[0], opts, owner) then [items[0]] else []) + Candidates(items[1..], opts, owner)
  }

  lemma {:induction false} CandidatesUnique(items: seq<Object>, opts: PruneOptions, owner: nat)
    requires NamesUnique(items)
    ensures NamesUnique(Candidates(items, opts, owner))
  {
    if items != [] {
      CandidatesUnique(items[1..], opts, owner);
      forall o | o in Candidates(items[1..], opts, owner) ensures o.name != items[0].name {
        var i :| 0 <= i < |items[1..]| && items[1..][i] == o;
        assert items[i + 1] == o;
      }
    }
  }

  function Retain(opts: PruneOptions): nat { if opts.retain < 0 then 0 else opts.retain }

  function Ranked(items: seq<Object>, opts: PruneOptions, owner: nat): (r: seq<Object>)
    ensures forall o :: o in r <==> o in items && Candidate(o, opts, owner)
  {
    Sort(Candidates(items, opts, owner), Newer)
  }

  lemma RankedSorted(items: seq<Object>, opts: PruneOptions, owner: nat)
    requires NamesUnique(items)
    ensures Sorted(Ranked(items, opts, owner), Newer)
  {
    NewerStrict();
    CandidatesUnique(items, opts, owner);
    UniqueComparable(Candidates(items, opts, owner));
    SortSorted(Candidates(items, opts, owner), Newer);
  }

  /** What a complete run deletes, oldest last. */
  function Stale(items: seq<Object>, opts: PruneOptions, owner: nat): seq<Object> {
    var ranked := Ranked(items, opts, owner);
    if |ranked| <= Retain(opts) then [] else ranked[Retain(opts)..]
  }

  /** The namespace's objects by name. */
  ghost predicate Lists(items: seq<Object>, objects: map<string, Object>) {
    && NamesUnique(items)
    && (forall o :: o in items <==> o.name in objects && objects[o.name] == o)
  }

  function NamesOf(s: seq<Object>): set<string> { set o | o in s :: o.name }

  class Namespace {
    var objects: map<string, Object>

    constructor (objects: map<string, Object>)
      ensures this.objects == objects
    {
      this.objects := objects;
    }

    /** Deletes the objects in order, up to the one whose delete fails. */
    method DeleteAll(stale: seq<Object>, failing: Option<nat>) returns (ok: bool)
      modifies this
      ensures ok <==> failing == None || failing.value >= |stale|
      ensures objects == old(objects) - NamesOf(if ok then stale else stale[..failing.value])
    {
      for i := 0 to |stale|
        invariant failing.Some? ==> i <= failing.value
        invariant objects == old(objects) - NamesOf(stale[..i])
      {
        if failing == Some(i) { return false; }
        objects := objects - {stale[i].name};
        assert stale[..i + 1] == stale[..i] + [stale[i]];
      }
      assert stale[..|stale|] == stale;
      return true;
    }

    /** Deletes what is past the retain count; the delete at `failing`, if any,
        ends the run with an error. `items` is what the list call returned, in
        any order. */
    method PruneImmutableObjects(items: seq<Object>, opts: PruneOptions, owner: nat, failing: Option<nat>) returns (ok: bool)
      modifies this
      ensures ok <==> failing == None || failing.value >= |Stale(items, opts, owner)|
      ensures
        var stale := Stale(items, opts, owner);
        objects == old(objects) - NamesOf(if ok then stale else stale[..failing.value])
    {
      var retain := opts.retain;
      if retain < 0 { retain := 0; }
      var candidates := Select(items, opts, owner);
      candidates := Sort(candidates, Newer);
      if |candidates| <= retain {
        assert NamesOf([]) == {};
        return true;
      }
      ok := DeleteAll(candidates[retain..], failing);
    }
  }

  lemma {:induction false} CandidatesAppend(items: seq<Object>, o: Object, opts: PruneOptions, owner: nat)
    ensures Candidates(items + [o], opts, owner)
         == Candidates(items, opts, owner) + if Candidate(o, opts, owner) then [o] else []
  {
    if items == [] {
      assert items + [o] == [o];
    } else {
      assert (items + [o])[1..] == items[1..] + [o];
      CandidatesAppend(items[1..], o, opts, owner);
    }
  }

  /** The owner's hash-suffixed history, without the current object. */
  method Select(items: seq<Object>, opts: PruneOptions, owner: nat) returns (candidates: seq<Object>)
    ensures candidates == Candidates(items, opts, owner)
  {
    candidates := [];
    for i := 0 to |items|
      invariant candidates == Candidates(items[..i], opts, owner)
    {
      var obj := items[i];
      assert items[..i + 1] == items[..i] + [obj];
      CandidatesAppend(items[..i], obj, opts, owner);
      if !(Prefix(opts) <= obj.name) { continue; }
      if obj.name == opts.currentName { continue; }
      if obj.controller == None || obj.controller.value != owner { continue; }
      candidates := candidates + [obj];
    }
    assert items[..|items|] == items;
  }

  /** Which objects go does not depend on the order they were listed in. */
  lemma StaleIsOrderIndependent(a: seq<Object>, b: seq<Object>, opts: PruneOptions, owner: nat)
    requires NamesUnique(a) && NamesUnique(b) && forall o :: o in a <==> o in b
    ensures Stale(a, opts, owner) == Stale(b, opts, owner)
  {
    NewerStrict();
    RankedSorted(a, opts, owner);
    RankedSorted(b, opts, owner);
    SortedUnique(Ranked(a, opts, owner), Ranked(b, opts, owner), Newer);
  }

  /** Of the objects under the base name that the owner controls, other than the
      current one, the newest `retain` stay, none if that is negative; everything
      older goes, and nothing else does. Within one second the greater name counts
      as newer. */
  lemma StaleIsTheOldest(items: seq<Object>, opts: PruneOptions, owner: nat)
    requires NamesUnique(items)
    ensures
      var stale, ranked := Stale(items, opts, owner), Ranked(items, opts, owner);
      var kept := ranked[..|ranked| - |stale|];
      && (forall o :: o in kept + stale <==>
            && o in items && opts.baseName + "-" <= o.name && o.name != opts.currentName
            && o.controller.Some? && o.controller.value == owner)
      && NamesUnique(kept + stale)
      && (forall a, b :: a in kept && b in stale ==>
            a.created > b.created || (a.created == b.created && Less(b.name, a.name)))
      && (opts.retain <= 0 ==> kept == [])
      && (opts.retain > 0 ==> |kept| <= opts.retain && (stale != [] ==> |kept| == opts.retain))
  {
    RankedSorted(items, opts, owner);
    RankedDistinctNames(items, opts, owner);
    var stale, ranked := Stale(items, opts, owner), Ranked(items, opts, owner);
    assert ranked[..|ranked| - |stale|] + stale == ranked;
  }

  /** The listing without some of its objects. */
  function Without(items: seq<Object>, gone: set<string>): (r: seq<Object>)
    ensures forall o :: o in r <==> o in items && o.name !in gone
  {
    if items == [] then [] else (if items[0].name in gone then [] else [items[0]]) + Without(items[1..], gone)
  }

  lemma {:induction false} WithoutSorted(s: seq<Object>, gone: set<string>)
    requires Sorted(s, Newer)
    ensures Sorted(Without(s, gone), Newer)
  {
    if s != [] {
      WithoutSorted(s[1..], gone);
      forall o | o in Without(s[1..], gone) ensures Newer(s[0], o) {
        var i :| 0 <= i < |s[1..]| && s[1..][i] == o;
        assert s[i + 1] == o;
      }
    }
  }

  lemma {:induction false} WithoutNone(s: seq<Object>, gone: set<string>)
    requires forall o :: o in s ==> o.name !in gone
    ensures Without(s, gone) == s
  {
    if s != [] { WithoutNone(s[1..], gone); }
  }

  lemma {:induction false} WithoutAll(s: seq<Object>, gone: set<string>)
    requires forall o :: o in s ==> o.name in gone
    ensures Without(s, gone) == []
  {
    if s != [] { WithoutAll(s[1..], gone); }
  }

  lemma {:induction false} WithoutAppend(a: seq<Object>, b: seq<Object>, gone: set<string>)
    ensures Without(a + b, gone) == Without(a, gone) + Without(b, gone)
  {
    if a == [] {
      assert a + b == b;
    } else {
      assert (a + b)[1..] == a[1..] + b;
      WithoutAppend(a[1..], b, gone);
    }
  }

  lemma RankedDistinctNames(items: seq<Object>, opts: PruneOptions, owner: nat)
    requires NamesUnique(items)
    ensures NamesUnique(Ranked(items, opts, owner))
  {
    RankedSorted(items, opts, owner);
    var r := Ranked(items, opts, owner);
    NewerStrict();
    forall i, j | 0 <= i < j < |r| ensures r[i].name != r[j].name {
      assert r[i] in items && r[j] in items;
      assert r[i] != r[j];
    }
  }

  lemma RankedWithout(items: seq<Object>, left: seq<Object>, gone: set<string>, opts: PruneOptions, owner: nat)
    requires NamesUnique(items) && NamesUnique(left)
    requires forall o :: o in left <==> o in items && o.name !in gone
    ensures Ranked(left, opts, owner) == Without(Ranked(items, opts, owner), gone)
  {
    RankedSorted(items, opts, owner);
    RankedSorted(left, opts, owner);
    WithoutSorted(Ranked(items, opts, owner), gone);
    NewerStrict();
    SortedUnique(Ranked(left, opts, owner), Without(Ranked(items, opts, owner), gone), Newer);
  }

  lemma KeptNamesStay(ranked: seq<Object>, n: nat, i: nat)
    requires NamesUnique(ranked) && i < n <= |ranked|
    ensures ranked[i].name !in NamesOf(ranked[n..])
  {
    forall s | s in ranked[n..] ensures s.name != ranked[i].name {
      var j :| 0 <= j < |ranked[n..]| && ranked[n..][j] == s;
      assert ranked[n + j] == s;
    }
  }

  /** What is kept shares no name with what is stale. */
  lemma KeptNotGone(ranked: seq<Object>, n: nat, gone: set<string>)
    requires NamesUnique(ranked) && n <= |ranked| && gone <= NamesOf(ranked[n..])
    ensures forall o :: o in ranked[..n] ==> o.name !in gone
  {
    forall o | o in ranked[..n] ensures o.name !in gone {
      var i :| 0 <= i < n && ranked[i] == o;
      KeptNamesStay(ranked, n, i);
    }
  }

  lemma KeptStays(kept: seq<Object>, stale: seq<Object>, gone: set<string>)
    requires forall o :: o in kept ==> o.name !in gone
    ensures Without(kept + stale, gone) == kept + Without(stale, gone)
  {
    WithoutNone(kept, gone);
    WithoutAppend(kept, stale, gone);
  }

  /** After part of the stale objects has gone, the rest of them is stale, and
      nothing else. */
  lemma StaleAfterPart(items: seq<Object>, left: seq<Object>, gone: set<string>, opts: PruneOptions, owner: nat)
    requires NamesUnique(items) && NamesUnique(left)
    requires gone <= NamesOf(Stale(items, opts, owner))
    requires forall o :: o in left <==> o in items && o.name !in gone
    ensures Stale(left, opts, owner) == Without(Stale(items, opts, owner), gone)
  {
    var ranked := Ranked(items, opts, owner);
    RankedWithout(items, left, gone, opts, owner);
    RankedDistinctNames(items, opts, owner);
    if |ranked| <= Retain(opts) {
      assert gone == {};
      WithoutNone(ranked, gone);
    } else {
      var kept, stale := ranked[..Retain(opts)], ranked[Retain(opts)..];
      assert ranked == kept + stale;
      KeptNotGone(ranked, Retain(opts), gone);
      KeptStays(kept, stale, gone);
    }
  }

  /** A run cut short at any delete, repeated, ends where an undisturbed run
      ends. */
  lemma InterruptedThenRepeated(items: seq<Object>, again: seq<Object>, opts: PruneOptions, owner: nat,
                                objects: map<string, Object>, n: nat)
    requires Lists(items, objects) && n <= |Stale(items, opts, owner)|
    requires Lists(again, objects - NamesOf(Stale(items, opts, owner)[..n]))
    ensures objects - NamesOf(Stale(items, opts, owner)[..n]) - NamesOf(Stale(again, opts, owner))
         == objects - NamesOf(Stale(items, opts, owner))
  {
    var stale := Stale(items, opts, owner);
    var gone := NamesOf(stale[..n]);
    assert gone <= NamesOf(stale);
    StaleAfterPart(items, again, gone, opts, owner);
    assert NamesOf(stale) == gone + NamesOf(Without(stale, gone));
  }

  /** A second run has nothing left to delete. */
  lemma PruneIdempotent(items: seq<Object>, again: seq<Object>, opts: PruneOptions, owner: nat, objects: map<string, Object>)
    requires Lists(items, objects) && Lists(again, objects - NamesOf(Stale(items, opts, owner)))
    ensures Stale(again, opts, owner) == []
  {
    var stale := Stale(items, opts, owner);
    StaleAfterPart(items, again, NamesOf(stale), opts, owner);
    WithoutAll(stale, NamesOf(stale));
  }
}
