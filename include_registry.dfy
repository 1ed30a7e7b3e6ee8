/** The include registry (`IncludedTaskfiles`): an insertion-ordered map from
    include name to descriptor, kept as a key sequence plus a mapping.

    `Registry` is its value, and `Put`, `PutAll` and `MergeSpec` say what
    `Set`, a run of `Set`s and `Merge` do to that value; the class
    `IncludedTaskfiles` is the mutable object itself, whose methods are proved
    against them. */
module IncludeRegistry {
  import opened Wrappers
  import opened Errors
  import opened IncludeDescriptor

  /** A key and the descriptor stored under it. */
  type Entry = (string, IncludedTaskfile)

  /** The value of a registry: its keys in order and its key-to-descriptor mapping. */
  datatype Registry = Registry(keys: seq<string>, mapping: map<string, IncludedTaskfile>)

  const Empty: Registry := Registry([], map[])

  ghost predicate NoDuplicates(s: seq<string>)
  {
    forall i, j :: 0 <= i < j < |s| ==> s[i] != s[j]
  }

  /** The registry invariant: no key is listed twice, and the listed keys are
      exactly the keys of the mapping. */
  ghost predicate Consistent(r: Registry)
  {
    && NoDuplicates(r.keys)
    && (forall k :: k in r.keys <==> k in r.mapping)
  }

  /** Go's `m[k]`: the stored descriptor, or the zero descriptor when `k` is absent. */
  function Lookup(m: map<string, IncludedTaskfile>, k: string): IncludedTaskfile
  {
    if k in m then m[k] else Zero
  }

  /** What `Set(k, v)` does to a registry's value. */
  function Put(r: Registry, k: string, v: IncludedTaskfile): Registry
  {
    Registry(if k in r.keys then r.keys else r.keys + [k], r.mapping[k := v])
  }

  /** Storing a key's own lookup back under it reads the same everywhere;
      this is what `Merge` of a registry into itself does at each step. */
  lemma LookupRestored(m: map<string, IncludedTaskfile>, k: string)
    ensures forall j :: Lookup(m[k := Lookup(m, k)], j) == Lookup(m, j)
  {
  }

  /** `Set(k, v)` appends a new key and leaves an existing key in its place,
      stores `v` under `k`, changes no other key's descriptor, and keeps the
      registry invariant. */
  lemma PutMeaning(r: Registry, k: string, v: IncludedTaskfile)
    ensures var r' := Put(r, k, v);
      && |r'.keys| == (if k in r.keys then |r.keys| else |r.keys| + 1)
      && r'.keys[..|r.keys|] == r.keys && k in r'.keys
      && r'.mapping.Keys == r.mapping.Keys + {k} && r'.mapping[k] == v
      && (forall j :: j in r.mapping && j != k ==> r'.mapping[j] == r.mapping[j])
      && (Consistent(r) ==> Consistent(r'))
  {
  }

  /** `Set` applied to each entry in turn, first to last. */
  function PutAll(r: Registry, es: seq<Entry>): Registry
    decreases |es|
  {
    if es == [] then r
    else Put(PutAll(r, es[..|es| - 1]), es[|es| - 1].0, es[|es| - 1].1)
  }

  lemma PutAllSnoc(r: Registry, es: seq<Entry>, e: Entry)
    ensures PutAll(r, es + [e]) == Put(PutAll(r, es), e.0, e.1)
  {
    assert (es + [e])[..|es|] == es;
  }

  /** The keys of a run of entries, in order. */
  function KeysOf(es: seq<Entry>): (ks: seq<string>)
    ensures |ks| == |es| && forall i :: 0 <= i < |es| ==> ks[i] == es[i].0
    decreases |es|
  {
    if es == [] then [] else KeysOf(es[..|es| - 1]) + [es[|es| - 1].0]
  }

  /** The entries `Range` hands out: each key in order with its descriptor. */
  function EntriesOf(r: Registry): (es: seq<Entry>)
    ensures |es| == |r.keys|
    ensures forall i :: 0 <= i < |es| ==> es[i] == (r.keys[i], Lookup(r.mapping, r.keys[i]))
  {
    seq(|r.keys|, i requires 0 <= i < |r.keys| => (r.keys[i], Lookup(r.mapping, r.keys[i])))
  }

  /** What `Merge(other)` does to the receiver's value: `Set` for each of
      `other`'s entries, in `other`'s order. */
  function MergeSpec(r: Registry, other: Registry): Registry
  {
    PutAll(r, EntriesOf(other))
  }

  /** The keys of `xs` that are not in `present`, in `xs`'s order. */
  function Missing(xs: seq<string>, present: seq<string>): (ys: seq<string>)
    ensures forall k :: k in ys <==> k in xs && k !in present
    decreases |xs|
  {
    if xs == [] then []
    else if xs[|xs| - 1] in present then Missing(xs[..|xs| - 1], present)
    else Missing(xs[..|xs| - 1], present) + [xs[|xs| - 1]]
  }

  /** The position of the first occurrence of `x` in `s`. */
  function FirstIndex(s: seq<string>, x: string): (i: nat)
    requires x in s
    ensures i < |s| && s[i] == x && forall j :: 0 <= j < i ==> s[j] != x
  {
    if s[0] == x then 0 else 1 + FirstIndex(s[1..], x)
  }

  /** Entry `i` is the last one with its key. */
  ghost predicate LastWithKey(es: seq<Entry>, i: int)
    requires 0 <= i < |es|
  {
    forall j :: i < j < |es| ==> es[j].0 != es[i].0
  }

  lemma {:induction false} FirstIndexOfPrefix(s: seq<string>, x: string, y: string)
    requires x in s
    ensures FirstIndex(s + [y], x) == FirstIndex(s, x)
  {
    if s[0] != x {
      assert (s + [y])[1..] == s[1..] + [y];
      FirstIndexOfPrefix(s[1..], x, y);
    }
  }

  /** The keys a run of `Set`s appends, given the keys `xs` it sets in turn and
      the keys `present` before it. */
  function Added(present: seq<string>, xs: seq<string>): seq<string>
    decreases |xs|
  {
    if xs == [] then []
    else
      var a := Added(present, xs[..|xs| - 1]);
      if xs[|xs| - 1] in present || xs[|xs| - 1] in a then a else a + [xs[|xs| - 1]]
  }

  lemma {:induction false} AddedMembers(present: seq<string>, xs: seq<string>)
    ensures forall k :: k in Added(present, xs) <==> k in xs && k !in present
    decreases |xs|
  {
    if xs != [] {
      AddedMembers(present, xs[..|xs| - 1]);
      assert xs == xs[..|xs| - 1] + [xs[|xs| - 1]];
    }
  }

  lemma {:induction false} AddedDistinct(present: seq<string>, xs: seq<string>)
    ensures NoDuplicates(Added(present, xs))
    decreases |xs|
  {
    if xs != [] {
      AddedDistinct(present, xs[..|xs| - 1]);
    }
  }

  /** The appended keys come in the order of their first occurrence in `xs`. */
  lemma {:induction false} AddedOrder(present: seq<string>, xs: seq<string>)
    ensures forall i, j :: 0 <= i < j < |Added(present, xs)| ==>
      && Added(present, xs)[i] in xs && Added(present, xs)[j] in xs
      && FirstIndex(xs, Added(present, xs)[i]) < FirstIndex(xs, Added(present, xs)[j])
    decreases |xs|
  {
    if xs != [] {
      var init, x := xs[..|xs| - 1], xs[|xs| - 1];
      assert xs == init + [x];
      var a := Added(present, init);
      AddedOrder(present, init);
      AddedMembers(present, init);
      forall k | k in init
        ensures FirstIndex(xs, k) == FirstIndex(init, k)
      {
        FirstIndexOfPrefix(init, k, x);
      }
      var a' := Added(present, xs);
      if !(x in present || x in a) {
        assert x !in init;
        assert FirstIndex(xs, x) == |init|;
        assert a' == a + [x];
        forall i, j | 0 <= i < j < |a'|
          ensures a'[i] in xs && a'[j] in xs && FirstIndex(xs, a'[i]) < FirstIndex(xs, a'[j])
        {
          assert a'[i] == a[i] && a[i] in a;
          assert FirstIndex(xs, a[i]) == FirstIndex(init, a[i]);
          if j < |a| {
            assert a'[j] == a[j] && a[j] in a;
            assert FirstIndex(xs, a[j]) == FirstIndex(init, a[j]);
          } else {
            assert a'[j] == x;
          }
        }
      } else {
        assert a' == a;
        forall i, j | 0 <= i < j < |a'|
          ensures a'[i] in xs && a'[j] in xs && FirstIndex(xs, a'[i]) < FirstIndex(xs, a'[j])
        {
          assert a[i] in a && a[j] in a;
          assert FirstIndex(init, a[i]) < FirstIndex(init, a[j]);
          assert FirstIndex(xs, a[i]) == FirstIndex(init, a[i]);
          assert FirstIndex(xs, a[j]) == FirstIndex(init, a[j]);
        }
      }
    } else {
      assert Added(present, xs) == [];
    }
  }

  /** With distinct keys, the appended keys are those not present, in order. */
  lemma {:induction false} AddedWhenDistinct(present: seq<string>, xs: seq<string>)
    requires NoDuplicates(xs)
    ensures Added(present, xs) == Missing(xs, present)
    decreases |xs|
  {
    if xs != [] {
      var init, x := xs[..|xs| - 1], xs[|xs| - 1];
      AddedWhenDistinct(present, init);
      AddedMembers(present, init);
    }
  }

  /** The keys after a run of `Set`s: the old keys, followed by the keys it appends. */
  lemma {:induction false} PutAllKeys(r: Registry, es: seq<Entry>)
    ensures PutAll(r, es).keys == r.keys + Added(r.keys, KeysOf(es))
    decreases |es|
  {
    if es != [] {
      var init := es[..|es| - 1];
      PutAllKeys(r, init);
      assert KeysOf(es)[..|es| - 1] == KeysOf(init);
    }
  }

  /** The mapping after a run of `Set`s: its keys are the old ones plus the
      run's; each key given in the run holds the descriptor of its LAST entry;
      every other key keeps its descriptor. */
  lemma {:induction false} PutAllMapping(r: Registry, es: seq<Entry>)
    ensures var m := PutAll(r, es).mapping;
      && (forall k :: k in m <==> k in r.mapping || k in KeysOf(es))
      && (forall i :: 0 <= i < |es| && LastWithKey(es, i) ==> m[es[i].0] == es[i].1)
      && (forall k :: k in r.mapping && k !in KeysOf(es) ==> m[k] == r.mapping[k])
    decreases |es|
  {
    if es != [] {
      var init, e := es[..|es| - 1], es[|es| - 1];
      PutAllMapping(r, init);
      assert KeysOf(es) == KeysOf(init) + [e.0];
      var m := PutAll(r, es).mapping;
      assert m == PutAll(r, init).mapping[e.0 := e.1];
      forall i | 0 <= i < |es| && LastWithKey(es, i)
        ensures m[es[i].0] == es[i].1
      {
        if i < |es| - 1 {
          assert es[|es| - 1].0 != es[i].0;
          assert LastWithKey(init, i);
        }
      }
    }
  }

  /** A run of `Set`s keeps the registry invariant. */
  lemma {:induction false} PutAllConsistent(r: Registry, es: seq<Entry>)
    requires Consistent(r)
    ensures Consistent(PutAll(r, es))
    decreases |es|
  {
    if es != [] {
      PutAllConsistent(r, es[..|es| - 1]);
    }
  }

  /** The keys after `Merge(other)`, for a consistent `other`: the receiver's
      keys in their order, then `other`'s keys that were not present, in
      `other`'s order. The registry invariant is kept. */
  lemma MergeKeys(r: Registry, other: Registry)
    requires Consistent(other)
    ensures MergeSpec(r, other).keys == r.keys + Missing(other.keys, r.keys)
    ensures Consistent(r) ==> Consistent(MergeSpec(r, other))
  {
    var es := EntriesOf(other);
    assert KeysOf(es) == other.keys;
    PutAllKeys(r, es);
    AddedWhenDistinct(r.keys, other.keys);
    if Consistent(r) {
      PutAllConsistent(r, es);
    }
  }

  /** The descriptors after `Merge(other)`, for a consistent `other`: every key
      of `other` holds `other`'s descriptor, and every other key of the
      receiver keeps its own. */
  lemma MergeValues(r: Registry, other: Registry)
    requires Consistent(other)
    ensures var m := MergeSpec(r, other).mapping;
      && (forall k :: k in m <==> k in r.mapping || k in other.mapping)
      && (forall k :: k in other.mapping ==> m[k] == other.mapping[k])
      && (forall k :: k in r.mapping && k !in other.mapping ==> m[k] == r.mapping[k])
  {
    var es := EntriesOf(other);
    assert KeysOf(es) == other.keys;
    PutAllMapping(r, es);
    var m := PutAll(r, es).mapping;
    forall k | k in other.mapping
      ensures m[k] == other.mapping[k]
    {
      var i :| 0 <= i < |other.keys| && other.keys[i] == k;
      assert LastWithKey(es, i);
    }
  }

  /** Decoding a registry into an empty one: the keys are the document's keys,
      each once, in order of first appearance, and each key holds the
      descriptor of its last occurrence. */
  lemma FromEmpty(es: seq<Entry>)
    ensures var r := PutAll(Empty, es);
      && Consistent(r)
      && (forall k :: k in r.keys <==> k in KeysOf(es))
      && (forall i, j :: 0 <= i < j < |r.keys| ==> FirstIndex(KeysOf(es), r.keys[i]) < FirstIndex(KeysOf(es), r.keys[j]))
      && (forall i :: 0 <= i < |es| && LastWithKey(es, i) ==> r.mapping[es[i].0] == es[i].1)
  {
    PutAllKeys(Empty, es);
    AddedMembers([], KeysOf(es));
    AddedOrder([], KeysOf(es));
    PutAllMapping(Empty, es);
    PutAllConsistent(Empty, es);
  }

  /** YAML node kinds, as the YAML library names them. */
  datatype Kind = DocumentNode | SequenceNode | MappingNode | ScalarNode | AliasNode

  /** A YAML node: its kind, its scalar text, and its children (for a mapping,
      keys at even and values at odd positions). */
  datatype Node = Node(kind: Kind, value: string, content: seq<Node>)

  /** The registry decoder's reading of the first `n` key/value pairs of a
      mapping: each value node decoded in document order into a fresh
      descriptor, stopping at the first that fails. Gives the entries decoded
      before the failure, and the failure. */
  function DecodeEntries(content: seq<Node>, decoder: Node -> Unmarshal, n: nat): (seq<Entry>, Option<Error>)
    requires 2 * n <= |content|
  {
    if n == 0 then ([], None)
    else
      var prior := DecodeEntries(content, decoder, n - 1);
      if prior.1.Some? then prior
      else
        match IncludeDescriptor.UnmarshalYAML(Zero, decoder(content[2 * n - 1]))
        case Failure(e) => (prior.0, Some(e))
        case Success(v) => (prior.0 + [(content[2 * n - 2].value, v)], None)
  }

  /** One more pair: decoding `n + 1` pairs after `n` that succeeded either
      fails with the new value's error or appends the new entry. */
  lemma DecodeEntriesStep(content: seq<Node>, decoder: Node -> Unmarshal, n: nat)
    requires 2 * (n + 1) <= |content| && DecodeEntries(content, decoder, n).1 == None
    ensures var prior := DecodeEntries(content, decoder, n).0;
      var v := IncludeDescriptor.UnmarshalYAML(Zero, decoder(content[2 * n + 1]));
      DecodeEntries(content, decoder, n + 1) ==
        if v.Failure? then (prior, Some(v.error)) else (prior + [(content[2 * n].value, v.value)], None)
  {
    assert 2 * (n + 1) - 1 == 2 * n + 1 && 2 * (n + 1) - 2 == 2 * n;
  }

  /** Pair `i` of a mapping decodes to entry `e`. */
  ghost predicate DecodesTo(content: seq<Node>, decoder: Node -> Unmarshal, i: nat, e: Entry)
    requires 2 * i + 1 < |content|
  {
    e.0 == content[2 * i].value && IncludeDescriptor.UnmarshalYAML(Zero, decoder(content[2 * i + 1])) == Success(e.1)
  }

  /** The decoded entries are the mapping's pairs in document order; on success
      all of them, and on failure those before the first pair whose value does
      not decode, whose error is the one reported. */
  lemma {:induction false} DecodeEntriesMeaning(content: seq<Node>, decoder: Node -> Unmarshal, n: nat)
    requires 2 * n <= |content|
    ensures var (es, err) := DecodeEntries(content, decoder, n);
      && |es| <= n
      && (forall i :: 0 <= i < |es| ==> DecodesTo(content, decoder, i, es[i]))
      && (err.None? ==> |es| == n)
      && (err.Some? ==>
            && |es| < n
            && IncludeDescriptor.UnmarshalYAML(Zero, decoder(content[2 * |es| + 1])) == Failure(err.value))
  {
    if n != 0 {
      DecodeEntriesMeaning(content, decoder, n - 1);
    }
  }

  /** Once some pair has failed, decoding further pairs changes nothing. */
  lemma {:induction false} DecodeEntriesStops(content: seq<Node>, decoder: Node -> Unmarshal, k: nat, n: nat)
    requires k <= n && 2 * n <= |content|
    requires DecodeEntries(content, decoder, k).1.Some?
    ensures DecodeEntries(content, decoder, n) == DecodeEntries(content, decoder, k)
    decreases n
  {
    if k < n {
      DecodeEntriesStops(content, decoder, k, n - 1);
    }
  }

  /** `IncludedTaskfiles`. `mapping` is `None` while Go's map is still nil. */
  class IncludedTaskfiles {
    var keys: seq<string>
    var mapping: Option<map<string, IncludedTaskfile>>

    /** The zero value: no keys and a nil map. */
    constructor ()
      ensures keys == [] && mapping == None
      ensures Valid()
    {
      keys := [];
      mapping := None;
    }

    /** The mapping as Go reads it: a nil map reads as empty. */
    function Entries(): map<string, IncludedTaskfile>
      reads this
    {
      if mapping.Some? then mapping.value else map[]
    }

    function Model(): Registry
      reads this
    {
      Registry(keys, Entries())
    }

    ghost predicate Valid()
      reads this
    {
      Consistent(Model())
    }

    /** `Set`: initialises a nil map, appends a new key, and stores the descriptor. */
    method Set(key: string, includedTaskfile: IncludedTaskfile)
      modifies this
      ensures mapping.Some?
      ensures Model() == Put(old(Model()), key, includedTaskfile)
      ensures old(Valid()) ==> Valid()
    {
      if mapping.None? {
        mapping := Some(map[]);
      }
      if key !in keys {
        keys := keys + [key];
      }
      mapping := Some(mapping.value[key := includedTaskfile]);
    }

    /** `Merge`: `Set` for each of `other`'s entries, in `other`'s order. A nil
        `other` changes nothing. `other` may be this registry itself. */
    method Merge(other: IncludedTaskfiles?)
      modifies this
      ensures other == null ==> keys == old(keys) && mapping == old(mapping)
      ensures other != null ==> Model() == MergeSpec(old(Model()), old(other.Model()))
      ensures old(Valid()) ==> Valid()
    {
      if other == null {
        return;
      }
      ghost var r0 := Model();
      ghost var o0 := other.Model();
      ghost var es := EntriesOf(o0);
      var ks := other.keys;
      var i := 0;
      while i < |ks|
        invariant 0 <= i <= |ks| && ks == o0.keys
        invariant forall k :: Lookup(other.Entries(), k) == Lookup(o0.mapping, k)
        invariant Model() == PutAll(r0, es[..i])
        invariant old(Valid()) ==> Valid()
      {
        var v := Lookup(other.Entries(), ks[i]);
        assert es[..i + 1] == es[..i] + [(ks[i], v)];
        PutAllSnoc(r0, es[..i], (ks[i], v));
        ghost var before := other.Entries();
        Set(ks[i], v);
        if other == this {
          assert other.Entries() == before[ks[i] := v];
          LookupRestored(before, ks[i]);
        }
        i := i + 1;
      }
      assert es[..i] == es;
    }

    /** `UnmarshalYAML`: a node that is not a mapping is refused; otherwise each
        value is decoded in document order and stored with `Set` under its key,
        stopping at the first value that fails to decode. The pairs stored
        before a failure stay stored. */
    method UnmarshalYAML(node: Node, decoder: Node -> Unmarshal) returns (err: Option<Error>)
      requires node.kind == MappingNode ==> |node.content| % 2 == 0
      modifies this
      ensures node.kind != MappingNode ==>
        err == Some(IncludesNotAMap) && keys == old(keys) && mapping == old(mapping)
      ensures node.kind == MappingNode ==>
        var decoded := DecodeEntries(node.content, decoder, |node.content| / 2);
        Model() == PutAll(old(Model()), decoded.0) && err == decoded.1
      ensures old(Valid()) ==> Valid()
    {
      if node.kind != MappingNode {
        return Some(IncludesNotAMap);
      }
      ghost var r0 := Model();
      var content := node.content;
      ghost var pairs, total := 0, |content| / 2;
      assert |content| == 2 * total;
      var i := 0;
      while i < |content|
        invariant i == 2 * pairs && pairs <= total
        invariant DecodeEntries(content, decoder, pairs).1 == None
        invariant Model() == PutAll(r0, DecodeEntries(content, decoder, pairs).0)
        invariant old(Valid()) ==> Valid()
      {
        var keyNode := content[i];
        var valueNode := content[i + 1];
        var v := IncludeDescriptor.UnmarshalYAML(Zero, decoder(valueNode));
        ghost var prior := DecodeEntries(content, decoder, pairs).0;
        DecodeEntriesStep(content, decoder, pairs);
        if v.Failure? {
          DecodeEntriesStops(content, decoder, pairs + 1, total);
          return Some(v.error);
        }
        PutAllSnoc(r0, prior, (keyNode.value, v.value));
        Set(keyNode.value, v.value);
        i, pairs := i + 2, pairs + 1;
      }
      assert pairs == total;
      return None;
    }
  }

  /** `Len`: 0 for a nil registry, otherwise the number of keys, which for a
      consistent registry is the number of stored descriptors. */
  function Len(tfs: IncludedTaskfiles?): (n: nat)
    reads tfs
    ensures tfs == null ==> n == 0
    ensures tfs != null ==> n == |tfs.keys|
    ensures tfs != null && Consistent(tfs.Model()) ==> n == |tfs.Entries()|
  {
    if tfs == null then 0
    else
      CountOfConsistent(tfs.Model());
      |tfs.keys|
  }

  /** A consistent registry stores as many descriptors as it lists keys. */
  lemma CountOfConsistent(r: Registry)
    ensures Consistent(r) ==> |r.mapping| == |r.keys|
  {
    if Consistent(r) {
      DistinctCount(r.keys, r.mapping);
    }
  }

  lemma {:induction false} DistinctCount(s: seq<string>, m: map<string, IncludedTaskfile>)
    requires NoDuplicates(s) && forall k :: k in s <==> k in m
    ensures |m| == |s|
  {
    DistinctCard(s);
    assert m.Keys == set k | k in s;
  }

  lemma {:induction false} DistinctCard(s: seq<string>)
    requires NoDuplicates(s)
    ensures |set k | k in s| == |s|
    decreases |s|
  {
    if s != [] {
      var init, x := s[..|s| - 1], s[|s| - 1];
      assert NoDuplicates(init);
      DistinctCard(init);
      assert (set k | k in s) == (set k | k in init) + {x};
      assert x !in init;
    }
  }

  /** `Range`: hands each key and its descriptor to `callback` (Go's `yield`) in key order and
      stops at the first error, which it returns; a nil registry yields nothing.
      `visited` records the calls made to `yield`. */
  method Range(tfs: IncludedTaskfiles?, callback: (string, IncludedTaskfile) -> Option<Error>)
    returns (err: Option<Error>, visited: seq<Entry>)
    ensures tfs == null ==> err == None && visited == []
    ensures tfs != null ==> |visited| <= |tfs.keys| && visited == EntriesOf(tfs.Model())[..|visited|]
    ensures forall i :: 0 <= i < |visited| - 1 ==> callback(visited[i].0, visited[i].1) == None
    ensures err.None? && visited != [] ==> callback(visited[|visited| - 1].0, visited[|visited| - 1].1) == None
    ensures tfs != null && err.None? ==> |visited| == |tfs.keys|
    ensures err.Some? ==> visited != [] && callback(visited[|visited| - 1].0, visited[|visited| - 1].1) == err
  {
    if tfs == null {
      return None, [];
    }
    ghost var all := EntriesOf(tfs.Model());
    visited := [];
    for i := 0 to |tfs.keys|
      invariant visited == all[..i]
      invariant forall j :: 0 <= j < i ==> callback(visited[j].0, visited[j].1) == None
    {
      var k := tfs.keys[i];
      var v := Lookup(tfs.Entries(), k);
      visited := visited + [(k, v)];
      var e := callback(k, v);
      if e.Some? {
        return e, visited;
      }
    }
    return None, visited;
  }
}
