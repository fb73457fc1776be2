/** The input of the content hash behind an immutable ConfigMap or Secret name:
    sorted, length-prefixed entries. A character stands for a byte. */
module HashInput {
  import opened Options
  import opened Sorting
  import opened Text

  /** A length prefix, the bytes it counts, and what follows. */
  function Prefixed(bytes: string, rest: string): string { Decimal(|bytes|) + (":" + bytes + rest) }

  function Entry(k: string, v: string): string { Prefixed(k, "=" + Prefixed(v, NEWLINE)) }

  function Encode(keys: seq<string>, data: map<string, string>): string
    requires forall k :: k in keys ==> k in data
  {
    if keys == [] then "" else Entry(keys[0], data[keys[0]]) + Encode(keys[1..], data)
  }

  ghost function Input(data: map<string, string>): string { Encode(SortedKeys(data.Keys), data) }

  /** Each entry is "len:key=len:value" on a line of its own. */
  lemma InputOfOne(data: map<string, string>, k: string)
    requires data.Keys == {k}
    ensures Input(data) == Decimal(|k|) + (":" + k + ("=" + (Decimal(|data[k]|) + (":" + data[k] + "\n"))))
  {
    OneKey(k);
    EncodeOne(k, data);
  }

  lemma EncodeOne(k: string, data: map<string, string>)
    requires k in data
    ensures Encode([k], data) == Entry(k, data[k])
  {
    assert Encode([k], data) == Entry(k, data[k]) + "";
  }

  /** Entries follow in ascending order of their keys; no data is no input. */
  lemma InputOfTwo(data: map<string, string>, k: string, l: string, n: int)
    requires data.Keys == {k, l} && FirstDifference(k, l, n)
    ensures Input(map[]) == ""
    ensures Input(data) == Input(map[k := data[k]]) + Input(map[l := data[l]])
  {
    NoKeys();
    TwoKeys(k, l, n);
    OneKey(k);
    OneKey(l);
    EncodeOne(k, map[k := data[k]]);
    EncodeOne(l, map[l := data[l]]);
    EncodeOne(k, data);
    EncodeAppend([k], l, data);
    assert [k] + [l] == [k, l];
    assert (map[k := data[k]]).Keys == {k} && (map[l := data[l]]).Keys == {l};
  }

  /* ---- Decoding ---- */

  /** A decimal length, a colon and that many bytes. */
  function Chunk(s: string): (r: Option<(string, string)>)
    ensures r.Some? ==> |r.value.1| < |s|
  {
    var (n, rest) := ReadDigits(s, 0);
    if rest == "" || rest[0] != ':' || |rest| < n + 1 then None else Some((rest[1..n + 1], rest[n + 1..]))
  }

  function ReadEntry(s: string): (r: Option<((string, string), string)>)
    ensures r.Some? ==> |r.value.1| < |s|
  {
    var key := Chunk(s);
    if key == None || key.value.1 == "" || key.value.1[0] != '=' then None
    else
      var value := Chunk(key.value.1[1..]);
      if value == None || value.value.1 == "" || value.value.1[0] != '\n' then None
      else Some(((key.value.0, value.value.0), value.value.1[1..]))
  }

  function Decode(s: string): Option<seq<(string, string)>>
    decreases |s|
  {
    if s == "" then Some([])
    else
      var entry := ReadEntry(s);
      if entry == None then None
      else
        var rest := Decode(entry.value.1);
        if rest == None then None else Some([entry.value.0] + rest.value)
  }

  lemma ChunkOf(n: nat, tail: string)
    requires |tail| >= n + 1 && tail[0] == ':'
    ensures Chunk(Decimal(n) + tail) == Some((tail[1..n + 1], tail[n + 1..]))
  {
    ReadDecimal(n, tail);
  }

  lemma ReadsChunk(chunk: string, rest: string)
    ensures Chunk(Prefixed(chunk, rest)) == Some((chunk, rest))
  {
    var tail := ":" + chunk + rest;
    ChunkOf(|chunk|, tail);
    assert tail[1..|chunk| + 1] == chunk;
    assert tail[|chunk| + 1..] == rest;
  }

  lemma PrefixedAppend(bytes: string, a: string, b: string)
    ensures Prefixed(bytes, a) + b == Prefixed(bytes, a + b)
  {
    var head := ":" + bytes;
    assert (head + a) + b == head + (a + b);
    assert (Decimal(|bytes|) + (head + a)) + b == Decimal(|bytes|) + ((head + a) + b);
  }

  lemma ReadsEntry(k: string, v: string, rest: string)
    ensures ReadEntry(Entry(k, v) + rest) == Some(((k, v), rest))
  {
    var value := Prefixed(v, NEWLINE + rest);
    PrefixedAppend(v, NEWLINE, rest);
    PrefixedAppend(k, "=" + Prefixed(v, NEWLINE), rest);
    assert ("=" + Prefixed(v, NEWLINE)) + rest == "=" + value;
    ReadsChunk(k, "=" + value);
    assert ("=" + value)[1..] == value;
    ReadsChunk(v, NEWLINE + rest);
    assert (NEWLINE + rest)[1..] == rest;
  }

  function Pairs(keys: seq<string>, data: map<string, string>): (r: seq<(string, string)>)
    requires forall k :: k in keys ==> k in data
    ensures |r| == |keys| && forall i :: 0 <= i < |r| ==> r[i] == (keys[i], data[keys[i]])
  {
    if keys == [] then [] else [(keys[0], data[keys[0]])] + Pairs(keys[1..], data)
  }

  lemma {:induction false} DecodesEncode(keys: seq<string>, data: map<string, string>)
    requires forall k :: k in keys ==> k in data
    ensures Decode(Encode(keys, data)) == Some(Pairs(keys, data))
  {
    if keys != [] {
      ReadsEntry(keys[0], data[keys[0]], Encode(keys[1..], data));
      DecodesEncode(keys[1..], data);
    }
  }

  lemma PairsTellMaps(ka: seq<string>, a: map<string, string>, kb: seq<string>, b: map<string, string>)
    requires (forall x :: x in ka <==> x in a) && (forall x :: x in kb <==> x in b)
    requires Pairs(ka, a) == Pairs(kb, b)
    ensures a == b
  {
    forall i | 0 <= i < |ka| ensures ka[i] == kb[i] && a[ka[i]] == b[ka[i]] {
      assert Pairs(ka, a)[i] == Pairs(kb, b)[i];
    }
    assert ka == kb;
    forall x | x in a ensures x in b && a[x] == b[x] {
      assert x in ka;
    }
    assert a.Keys == b.Keys;
  }

  /** The hash input tells two contents apart: equal inputs, equal maps, for any
      keys and values whatsoever. */
  lemma InputInjective(a: map<string, string>, b: map<string, string>)
    ensures Input(a) == Input(b) <==> a == b
  {
    if Input(a) == Input(b) {
      DecodesEncode(SortedKeys(a.Keys), a);
      DecodesEncode(SortedKeys(b.Keys), b);
      PairsTellMaps(SortedKeys(a.Keys), a, SortedKeys(b.Keys), b);
    }
  }

  lemma {:induction false} EncodeAppend(keys: seq<string>, k: string, data: map<string, string>)
    requires k in data && forall x :: x in keys ==> x in data
    ensures Encode(keys + [k], data) == Encode(keys, data) + Entry(k, data[k])
  {
    if keys == [] {
      assert keys + [k] == [k];
      assert Encode([k], data) == Entry(k, data[k]) + Encode([], data);
    } else {
      assert (keys + [k])[1..] == keys[1..] + [k];
      EncodeAppend(keys[1..], k, data);
    }
  }

  /** Feeding the hash, entry by entry. */
  method Feed(data: map<string, string>) returns (h: string)
    ensures h == Input(data)
  {
    var keys := CollectSorted(data.Keys);
    h := "";
    for i := 0 to |keys|
      invariant h == Encode(keys[..i], data)
    {
      assert keys[i] in keys;
      assert keys[..i + 1] == keys[..i] + [keys[i]];
      EncodeAppend(keys[..i], keys[i], data);
      h := h + Entry(keys[i], data[keys[i]]);
    }
    assert keys[..|keys|] == keys;
  }
}
