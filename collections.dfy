/** The array and object helpers of shared/utils.js. */
module Collections {
  import opened Json
  import opened Strings

  /** The concatenation of a list of lists. */
  function Flatten<T>(chunks: seq<seq<T>>): seq<T>
  {
    if chunks == [] then [] else Flatten(chunks[..|chunks| - 1]) + chunks[|chunks| - 1]
  }

  /**
   * `chunk(array, size)`: slices of `size` elements taken left to right, the
   * last one shorter when `size` does not divide the length. The number of
   * chunks is the least `k` with `k * size >= |a|`, that is ceil(|a| / size).
   * An empty array gives no chunks whatever the size; a non-empty array with
   * `size <= 0` never leaves the loop (`ChunkNeverEnds`), hence the precondition.
   */
  method Chunk<T>(a: seq<T>, size: int) returns (chunks: seq<seq<T>>)
    requires size > 0 || a == []
    ensures Flatten(chunks) == a
    ensures forall j :: 0 <= j < |chunks| - 1 ==> |chunks[j]| == size
    ensures chunks != [] ==> 1 <= |chunks[|chunks| - 1]| <= size
    ensures |chunks| * size >= |a| && (|chunks| == 0 || (|chunks| - 1) * size < |a|)
  {
    chunks := [];
    var i := 0;
    while i < |a|
      invariant i == |chunks| * size
      invariant chunks == [] || (|chunks| - 1) * size < |a|
      invariant Flatten(chunks) == a[..if i < |a| then i else |a|]
      invariant forall j :: 0 <= j < |chunks| ==> |chunks[j]| == size || (j == |chunks| - 1 && i >= |a|)
      invariant chunks != [] ==> 1 <= |chunks[|chunks| - 1]| <= size
    {
      var end := if i + size <= |a| then i + size else |a|;
      assert Flatten(chunks + [a[i..end]]) == Flatten(chunks) + a[i..end];
      assert a[..i] + a[i..end] == a[..end];
      assert (|chunks| + 1) * size == |chunks| * size + size;
      chunks := chunks + [a[i..end]];
      i := i + size;
    }
  }

  /**
   * For a non-empty array and `size <= 0`, `i` after any number `k` of
   * rounds is `k * size`, still below the length: the loop of `chunk` runs
   * forever there.
   */
  lemma ChunkNeverEnds(length: nat, size: int, k: nat)
    requires length > 0 && size <= 0
    ensures k * size < length
  {
  }

  /** The index of the first occurrence of `x` in `s`. */
  function FirstIndex<T(==)>(s: seq<T>, x: T): (i: nat)
    requires x in s
    ensures i < |s| && s[i] == x && x !in s[..i]
  {
    if s[0] == x then 0 else 1 + FirstIndex(s[1..], x)
  }

  /**
   * `unique(array)` (`[...new Set(array)]`): each element once, at its first
   * occurrence. Elements are compared by value, where `Set` compares objects
   * by reference.
   */
  function Unique<T(==)>(s: seq<T>): (r: seq<T>)
    ensures forall i :: 0 <= i < |r| ==> r[i] in s
  {
    if s == [] then []
    else if s[|s| - 1] in Unique(s[..|s| - 1]) then Unique(s[..|s| - 1])
    else Unique(s[..|s| - 1]) + [s[|s| - 1]]
  }

  /** `unique` keeps every element of the input, and each one only once. */
  lemma {:induction false} UniqueElements<T>(s: seq<T>)
    ensures var r := Unique(s);
      && (forall i, j :: 0 <= i < j < |r| ==> r[i] != r[j])
      && (forall i :: 0 <= i < |s| ==> s[i] in r)
  {
    if s != [] {
      var init := s[..|s| - 1];
      UniqueElements(init);
      assert forall i :: 0 <= i < |init| ==> init[i] == s[i];
      assert s == init + [s[|s| - 1]];
    }
  }

  /** `unique` lists the elements in the order of their first occurrences. */
  lemma {:induction false} UniqueOrder<T>(s: seq<T>)
    ensures var r := Unique(s);
      forall i, j :: 0 <= i < j < |r| ==> FirstIndex(s, r[i]) < FirstIndex(s, r[j])
  {
    if s != [] {
      var init := s[..|s| - 1];
      var last := s[|s| - 1];
      UniqueOrder(init);
      UniqueElements(init);
      var u := Unique(init);
      forall i | 0 <= i < |u| ensures FirstIndex(s, u[i]) == FirstIndex(init, u[i]) && FirstIndex(init, u[i]) < |init| {
        FirstIndexPrefix(init, s, u[i]);
      }
      if last !in u {
        assert last !in init;
        FirstIndexLast(s);
        var r := u + [last];
        forall i, j | 0 <= i < j < |r| ensures FirstIndex(s, r[i]) < FirstIndex(s, r[j]) {
          if j == |u| {
            assert r[i] == u[i];
          } else {
            assert r[i] == u[i] && r[j] == u[j];
          }
        }
      }
    }
  }

  lemma FirstIndexPrefix<T>(p: seq<T>, s: seq<T>, x: T)
    requires x in p && |p| <= |s| && p == s[..|p|]
    ensures x in s && FirstIndex(s, x) == FirstIndex(p, x)
  {
    if s[0] != x {
      FirstIndexPrefix(p[1..], s[1..], x);
    }
  }

  lemma {:induction false} FirstIndexLast<T>(s: seq<T>)
    requires s != [] && s[|s| - 1] !in s[..|s| - 1]
    ensures FirstIndex(s, s[|s| - 1]) == |s| - 1
  {
    if |s| > 1 {
      assert s[0] in s[..|s| - 1];
      assert s[1..][..|s| - 2] == s[1..|s| - 1];
      FirstIndexLast(s[1..]);
    }
  }

  /** The elements of `items` whose key is `k`, in order. */
  function WithKey<T, K(==)>(items: seq<T>, keyOf: T -> K, k: K): seq<T>
  {
    if items == [] then []
    else WithKey(items[..|items| - 1], keyOf, k) + (if keyOf(items[|items| - 1]) == k then [items[|items| - 1]] else [])
  }

  datatype Group<K, T> = Group(key: K, members: seq<T>)

  /** The sum of the group sizes. */
  function GroupedCount<K, T>(groups: seq<Group<K, T>>): nat
  {
    if groups == [] then 0 else GroupedCount(groups[..|groups| - 1]) + |groups[|groups| - 1].members|
  }

  /** The position of key `k` in `groups`, or `|groups|` when absent. */
  function GroupIndex<K(==), T>(groups: seq<Group<K, T>>, k: K): (i: nat)
    ensures i <= |groups|
    ensures i < |groups| ==> groups[i].key == k
    ensures forall j :: 0 <= j < i ==> groups[j].key != k
  {
    if groups == [] then 0
    else if groups[0].key == k then 0
    else 1 + GroupIndex(groups[1..], k)
  }

  ghost predicate DistinctKeys<K, T>(groups: seq<Group<K, T>>)
  {
    forall i, j :: 0 <= i < j < |groups| ==> groups[i].key != groups[j].key
  }

  ghost predicate MembersByKey<K, T>(groups: seq<Group<K, T>>, items: seq<T>, keyOf: T -> K)
  {
    forall i :: 0 <= i < |groups| ==> groups[i].members == WithKey(items, keyOf, groups[i].key)
  }

  ghost predicate HasGroup<K, T>(groups: seq<Group<K, T>>, k: K)
  {
    exists i :: 0 <= i < |groups| && groups[i].key == k
  }

  ghost predicate CoversItems<K, T>(groups: seq<Group<K, T>>, items: seq<T>, keyOf: T -> K)
  {
    forall n :: 0 <= n < |items| ==> HasGroup(groups, keyOf(items[n]))
  }

  ghost predicate NoEmptyGroup<K, T>(groups: seq<Group<K, T>>)
  {
    forall i :: 0 <= i < |groups| ==> groups[i].members != []
  }

  /** Keys of `groups` are distinct, each item has a group, and each group holds exactly the items with its key, in order. */
  ghost predicate GroupsOf<K, T>(groups: seq<Group<K, T>>, items: seq<T>, keyOf: T -> K)
  {
    DistinctKeys(groups) && MembersByKey(groups, items, keyOf) && CoversItems(groups, items, keyOf) && NoEmptyGroup(groups)
  }

  /** The groups after one push of `groupBy`. */
  function Pushed<K(==), T>(groups: seq<Group<K, T>>, k: K, x: T): seq<Group<K, T>>
  {
    var i := GroupIndex(groups, k);
    if i == |groups| then groups + [Group(k, [x])] else groups[i := Group(k, groups[i].members + [x])]
  }

  /**
   * `groupBy(array, key)`: each item is pushed onto the group of its key, the
   * group being created on the key's first occurrence. `keyOf` stands for the
   * property read `item[key]` and its conversion to a property name.
   */
  method GroupBy<T, K(==)>(items: seq<T>, keyOf: T -> K) returns (groups: seq<Group<K, T>>)
    ensures GroupsOf(groups, items, keyOf)
    ensures GroupedCount(groups) == |items|
  {
    groups := [];
    var n := 0;
    while n < |items|
      invariant 0 <= n <= |items|
      invariant GroupsOf(groups, items[..n], keyOf)
      invariant GroupedCount(groups) == n
    {
      var x := items[n];
      ghost var before := groups;
      groups := Pushed(groups, keyOf(x), x);
      GroupStep(before, groups, items, n, keyOf);
      n := n + 1;
    }
    assert items[..n] == items;
  }

  /** One push of `groupBy` keeps `GroupsOf` and adds one to the item count. */
  lemma GroupStep<T, K>(before: seq<Group<K, T>>, after: seq<Group<K, T>>, items: seq<T>, n: nat, keyOf: T -> K)
    requires n < |items|
    requires GroupsOf(before, items[..n], keyOf)
    requires after == Pushed(before, keyOf(items[n]), items[n])
    ensures GroupsOf(after, items[..n + 1], keyOf)
    ensures GroupedCount(after) == GroupedCount(before) + 1
  {
    var prefix, x := items[..n], items[n];
    assert items[..n + 1] == prefix + [x];
    var k := keyOf(x);
    var i := GroupIndex(before, k);
    if i == |before| {
      GroupedCountAppend(before, Group(k, [x]));
    } else {
      GroupedCountUpdate(before, i, x);
    }
    StepMembers(before, prefix, x, keyOf);
    StepCovers(before, prefix, x, keyOf);
    StepShape(before, x, keyOf(x));
  }

  lemma StepShape<K, T>(before: seq<Group<K, T>>, x: T, k: K)
    requires DistinctKeys(before) && NoEmptyGroup(before)
    ensures DistinctKeys(Pushed(before, k, x)) && NoEmptyGroup(Pushed(before, k, x))
  {
  }

  lemma StepMembers<T, K>(before: seq<Group<K, T>>, prefix: seq<T>, x: T, keyOf: T -> K)
    requires DistinctKeys(before) && MembersByKey(before, prefix, keyOf) && CoversItems(before, prefix, keyOf)
    ensures MembersByKey(Pushed(before, keyOf(x), x), prefix + [x], keyOf)
  {
    var after := Pushed(before, keyOf(x), x);
    var p := prefix + [x];
    assert p[..|p| - 1] == prefix;
    if GroupIndex(before, keyOf(x)) == |before| {
      WithKeyAbsent(before, prefix, keyOf, keyOf(x));
    }
    forall j | 0 <= j < |after| ensures after[j].members == WithKey(p, keyOf, after[j].key) {
    }
  }

  lemma StepCovers<T, K>(before: seq<Group<K, T>>, prefix: seq<T>, x: T, keyOf: T -> K)
    requires CoversItems(before, prefix, keyOf)
    ensures CoversItems(Pushed(before, keyOf(x), x), prefix + [x], keyOf)
  {
    var after := Pushed(before, keyOf(x), x);
    var i := GroupIndex(before, keyOf(x));
    var p := prefix + [x];
    forall m | 0 <= m < |p| ensures HasGroup(after, keyOf(p[m])) {
      if m < |prefix| {
        assert p[m] == prefix[m];
        var j :| 0 <= j < |before| && before[j].key == keyOf(prefix[m]);
        assert 0 <= j < |after| && after[j].key == keyOf(p[m]);
      } else {
        var j := if i == |before| then |before| else i;
        assert 0 <= j < |after| && after[j].key == keyOf(p[m]);
      }
    }
  }

  lemma WithKeyAbsent<T, K>(groups: seq<Group<K, T>>, items: seq<T>, keyOf: T -> K, k: K)
    requires CoversItems(groups, items, keyOf) && GroupIndex(groups, k) == |groups|
    ensures WithKey(items, keyOf, k) == []
  {
    if items != [] {
      WithKeyAbsent(groups, items[..|items| - 1], keyOf, k);
      var last := items[|items| - 1];
      var j :| 0 <= j < |groups| && groups[j].key == keyOf(last);
    }
  }

  lemma GroupedCountAppend<K, T>(groups: seq<Group<K, T>>, g: Group<K, T>)
    ensures GroupedCount(groups + [g]) == GroupedCount(groups) + |g.members|
  {
    assert (groups + [g])[..|groups|] == groups;
  }

  lemma {:induction false} GroupedCountUpdate<K, T>(groups: seq<Group<K, T>>, i: nat, x: T)
    requires i < |groups|
    ensures GroupedCount(groups[i := Group(groups[i].key, groups[i].members + [x])]) == GroupedCount(groups) + 1
  {
    var updated := groups[i := Group(groups[i].key, groups[i].members + [x])];
    if i == |groups| - 1 {
      assert updated[..|updated| - 1] == groups[..|groups| - 1];
    } else {
      GroupedCountUpdate(groups[..|groups| - 1], i, x);
      assert updated[..|updated| - 1] == groups[..|groups| - 1][i := Group(groups[i].key, groups[i].members + [x])];
    }
  }

  /** What `pick(obj, keys)` returns: the requested keys that `obj` has, values unchanged. */
  function Picked<V>(obj: map<string, V>, keys: seq<string>): map<string, V>
  {
    map k | k in obj.Keys && k in keys :: obj[k]
  }

  /** What `omit(obj, keys)` returns: `obj` without the listed keys. */
  function Omitted<V>(obj: map<string, V>, keys: seq<string>): map<string, V>
  {
    map k | k in obj.Keys && k !in keys :: obj[k]
  }

  /** `pick`: copies each listed key that is an own key of `obj` into a fresh object. */
  method Pick<V>(obj: map<string, V>, keys: seq<string>) returns (result: map<string, V>)
    ensures result == Picked(obj, keys)
    ensures result.Keys <= obj.Keys && forall k :: k in result ==> k in keys && result[k] == obj[k]
  {
    result := map[];
    var i := 0;
    while i < |keys|
      invariant 0 <= i <= |keys|
      invariant result == Picked(obj, keys[..i])
    {
      if keys[i] in obj {
        result := result[keys[i] := obj[keys[i]]];
      }
      assert keys[..i + 1] == keys[..i] + [keys[i]];
      i := i + 1;
    }
    assert keys[..i] == keys;
  }

  /** `omit`: deletes each listed key from a copy of `obj`. */
  method Omit<V>(obj: map<string, V>, keys: seq<string>) returns (result: map<string, V>)
    ensures result == Omitted(obj, keys)
    ensures result.Keys == obj.Keys - set k | k in keys
    ensures forall k :: k in result ==> result[k] == obj[k]
  {
    result := obj;
    var i := 0;
    while i < |keys|
      invariant 0 <= i <= |keys|
      invariant result == Omitted(obj, keys[..i])
    {
      result := result - {keys[i]};
      assert keys[..i + 1] == keys[..i] + [keys[i]];
      i := i + 1;
    }
    assert keys[..i] == keys;
  }

  /** `pick` and `omit` with the same keys split `obj` into two disjoint parts. */
  lemma PickOmitPartition<V>(obj: map<string, V>, keys: seq<string>)
    ensures Picked(obj, keys).Keys !! Omitted(obj, keys).Keys
    ensures Picked(obj, keys) + Omitted(obj, keys) == obj
  {
  }

  /** The value `result[key] || {}` that `deepMerge` recurses into. */
  function OrEmpty(m: map<string, Value>, k: string): Value
  {
    if k in m && Truthy(m[k]) then m[k] else Obj(map[])
  }

  /**
   * What `for...in` visits of a value: the same keys and values as `{...v}`.
   * An object's value is one of its fields, an array's is one of its items
   * and a string's is a one-character string.
   */
  lemma SpreadMember(v: Value, k: string)
    requires k in Spread(v)
    ensures v.Obj? ==> Spread(v)[k] in v.fields.Values
    ensures v.Arr? ==> exists i :: 0 <= i < |v.items| && Spread(v)[k] == v.items[i]
    ensures v.Str? ==> Spread(v)[k].Str?
  {
    if v.Arr? {
      IndexedKeys(v.items, |v.items|, k);
      var i :| 0 <= i < |v.items| && k == NatToString(i);
    } else if v.Str? {
      IndexedKeys(Chars(v.s), |v.s|, k);
      var i :| 0 <= i < |v.s| && k == NatToString(i);
    }
  }

  /**
   * What `deepMerge(target, source)` returns: a copy of the target's
   * properties in which every key that `for...in` visits in `source` is
   * overwritten, except that a plain-object value is merged recursively into
   * the target's value there. An array or a string source contributes its
   * indices; `null` and the other primitives contribute nothing.
   */
  function Merged(target: Value, source: Value): (r: map<string, Value>)
    ensures r.Keys == Spread(target).Keys + Spread(source).Keys
    ensures forall k :: k in r ==> r[k] == MergedAt(target, source, k)
    decreases source, 1
  {
    map k | k in Spread(target).Keys + Spread(source).Keys :: MergedAt(target, source, k)
  }

  /** The value `deepMerge` leaves at key `k`. */
  function MergedAt(target: Value, source: Value, k: string): Value
    requires k in Spread(target) || k in Spread(source)
    decreases source, 0
  {
    if k in Spread(source) then
      var v := Spread(source)[k];
      SpreadMember(source, k);
      if IsPlainObject(v) then Obj(Merged(OrEmpty(Spread(target), k), v)) else v
    else Spread(target)[k]
  }

  /**
   * `deepMerge`: spreads the target into `result`, then assigns each key of
   * `source` in a `for...in` loop, recursing into plain-object values. Values
   * are immutable here, so neither input can be changed.
   */
  method DeepMerge(target: Value, source: Value) returns (result: map<string, Value>)
    ensures result == Merged(target, source)
    decreases source
  {
    result := Spread(target);
    ghost var t := result;
    var fields := Spread(source);
    var pending := fields.Keys;
    while pending != {}
      invariant pending <= fields.Keys
      invariant forall k :: k in result <==> k in t || (k in fields && k !in pending)
      invariant forall k :: k in result && (k !in fields || k in pending) ==> result[k] == t[k]
      invariant forall k :: k in fields && k !in pending ==> result[k] == MergedAt(target, source, k)
      decreases pending
    {
      var key :| key in pending;
      var v := fields[key];
      SpreadMember(source, key);
      if IsPlainObject(v) {
        assert OrEmpty(result, key) == OrEmpty(t, key);
        var inner := DeepMerge(OrEmpty(result, key), v);
        result := result[key := Obj(inner)];
      } else {
        result := result[key := v];
      }
      pending := pending - {key};
    }
    assert result.Keys == t.Keys + fields.Keys;
    MergedFromParts(target, source, result);
  }

  /** A map with the keys of `Merged(target, source)` and its value at each key is that merge. */
  lemma MergedFromParts(target: Value, source: Value, result: map<string, Value>)
    requires result.Keys == Spread(target).Keys + Spread(source).Keys
    requires forall k :: k in result ==> result[k] == MergedAt(target, source, k)
    ensures result == Merged(target, source)
  {
    var m := Merged(target, source);
    assert result.Keys == m.Keys;
    forall k | k in result
      ensures result[k] == m[k]
    {
    }
  }

  /** Merging into an empty object gives `{...source}`, however deeply nested. */
  lemma {:induction false} MergeIntoEmptyCopies(source: Value)
    ensures Merged(Obj(map[]), source) == Spread(source)
    decreases source
  {
    var r := Merged(Obj(map[]), source);
    forall k | k in Spread(source) ensures r[k] == Spread(source)[k] {
      var v := Spread(source)[k];
      SpreadMember(source, k);
      if IsPlainObject(v) {
        MergeIntoEmptyCopies(v);
      }
    }
  }

  /** Merging the same source a second time changes nothing. */
  lemma {:induction false} MergeIdempotent(target: Value, source: Value)
    ensures Merged(Obj(Merged(target, source)), source) == Merged(target, source)
    decreases source, 1
  {
    MergeAgainKeys(target, source);
    forall k | k in Merged(Obj(Merged(target, source)), source)
      ensures Merged(Obj(Merged(target, source)), source)[k] == Merged(target, source)[k]
    {
      MergeIdempotentAt(target, source, k);
    }
  }

  /** Merging the same source a second time adds no key. */
  lemma MergeAgainKeys(target: Value, source: Value)
    ensures Merged(Obj(Merged(target, source)), source).Keys == Merged(target, source).Keys
  {
    assert Spread(Obj(Merged(target, source))) == Merged(target, source);
  }

  /** The key-by-key step of `MergeIdempotent`. */
  lemma {:induction false} MergeIdempotentAt(target: Value, source: Value, k: string)
    requires k in Merged(Obj(Merged(target, source)), source)
    ensures k in Merged(target, source)
    ensures Merged(Obj(Merged(target, source)), source)[k] == Merged(target, source)[k]
    decreases source, 0
  {
    var once := Merged(target, source);
    if k in Spread(source) {
      var v := Spread(source)[k];
      SpreadMember(source, k);
      if IsPlainObject(v) {
        var inner := OrEmpty(Spread(target), k);
        MergeIdempotent(inner, v);
        assert OrEmpty(once, k) == Obj(Merged(inner, v));
      }
    }
  }
}
