/**
 * `EnumUtility.GetEnumIndexMap<T>()`: numbers the members of an enum densely, in the
 * order `Enum.GetValues<T>()` lists them. Trackers size their state arrays with it.
 */
module EnumUtility {
  import opened Wrappers
  import opened Lists

  /** `Dictionary.Add` throws `ArgumentException` when the key is already present. */
  datatype Error = DuplicateKey

  /** The dictionary after adding `items[i] -> i` for every position i, in order. */
  function IndexMap<T>(items: seq<T>): map<T, int>
  {
    if items == [] then map[] else IndexMap(items[..|items| - 1])[items[|items| - 1] := |items| - 1]
  }

  /** The keys of the map are exactly the members listed. */
  lemma {:induction false} IndexMapKeys<T>(items: seq<T>)
    ensures forall x :: x in IndexMap(items) <==> x in items
  {
    if items != [] {
      var init := items[..|items| - 1];
      IndexMapKeys(init);
      assert items == init + [items[|items| - 1]];
    }
  }

  /** Every index lies in [0, N). */
  lemma {:induction false} IndexMapRange<T>(items: seq<T>)
    ensures forall x | x in IndexMap(items) :: 0 <= IndexMap(items)[x] < |items|
  {
    if items != [] {
      IndexMapRange(items[..|items| - 1]);
    }
  }

  /** With distinct members, the member at position i maps to i. */
  lemma {:induction false} IndexMapAt<T>(items: seq<T>, i: nat)
    requires NoDuplicates(items)
    requires i < |items|
    ensures items[i] in IndexMap(items) && IndexMap(items)[items[i]] == i
  {
    var last := |items| - 1;
    if i < last {
      var init := items[..last];
      assert NoDuplicates(init) by {
        forall a, b | 0 <= a < b < |init| ensures init[a] != init[b] {
          assert init[a] == items[a] && init[b] == items[b];
        }
      }
      assert init[i] == items[i];
      IndexMapAt(init, i);
      assert items[i] != items[last];
    }
  }

  /** With distinct members, the map has one entry per member, so its count is N. */
  lemma {:induction false} IndexMapSize<T>(items: seq<T>)
    requires NoDuplicates(items)
    ensures |IndexMap(items)| == |items|
  {
    if items != [] {
      var init := items[..|items| - 1];
      assert NoDuplicates(init) by {
        forall a, b | 0 <= a < b < |init| ensures init[a] != init[b] {
          assert init[a] == items[a] && init[b] == items[b];
        }
      }
      IndexMapSize(init);
      IndexMapKeys(init);
      assert items[|items| - 1] !in init by {
        forall a | 0 <= a < |init| ensures init[a] != items[|items| - 1] {
          assert init[a] == items[a];
        }
      }
    }
  }

  /** With distinct members, distinct members get distinct indices and every index in [0, N) is used. */
  lemma IndexMapBijective<T>(items: seq<T>)
    requires NoDuplicates(items)
    ensures forall x, y | x in IndexMap(items) && y in IndexMap(items) && x != y :: IndexMap(items)[x] != IndexMap(items)[y]
    ensures forall i | 0 <= i < |items| :: i in IndexMap(items).Values
  {
    var m := IndexMap(items);
    IndexMapKeys(items);
    forall x, y | x in m && y in m && x != y ensures m[x] != m[y] {
      IndexMapAt(items, FirstIndex(items, x));
      IndexMapAt(items, FirstIndex(items, y));
    }
    forall i | 0 <= i < |items| ensures i in m.Values {
      IndexMapAt(items, i);
      assert m[items[i]] == i;
    }
  }

  /** `map[x]` for a listed member: its position in the list, so distinct members never share an index. */
  function IndexOf<T(==)>(items: seq<T>, x: T): (i: nat)
    requires NoDuplicates(items) && x in items
    ensures x in IndexMap(items) && IndexMap(items)[x] == i
    ensures i < |items| == |IndexMap(items)| && items[i] == x
  {
    IndexMapAt(items, FirstIndex(items, x));
    IndexMapSize(items);
    IndexMap(items)[x]
  }

  /**
   * `GetEnumIndexMap`: a `for` loop that adds `items[i] -> i` to a fresh dictionary.
   * `items` is what `Enum.GetValues<T>()` returns. A repeated member makes `Add` throw.
   */
  method GetEnumIndexMap<T(==)>(items: seq<T>) returns (r: Result<map<T, int>, Error>)
    ensures r.Ok? <==> NoDuplicates(items)
    ensures r.Ok? ==> r.value == IndexMap(items)
    ensures r.Ok? ==> |r.value| == |items|
    ensures r.Ok? ==> forall i | 0 <= i < |items| :: items[i] in r.value && r.value[items[i]] == i
    ensures r.Ok? ==> forall x | x in r.value :: 0 <= r.value[x] < |items|
  {
    var m: map<T, int> := map[];
    for i := 0 to |items|
      invariant m == IndexMap(items[..i])
      invariant NoDuplicates(items[..i])
    {
      IndexMapKeys(items[..i]);
      if items[i] in m {
        assert !NoDuplicates(items) by {
          var j :| 0 <= j < i && items[..i][j] == items[i];
        }
        return Err(DuplicateKey);
      }
      assert items[..i + 1] == items[..i] + [items[i]];
      AppendNoDuplicates(items[..i], items[i]);
      m := m[items[i] := i];
    }
    assert items[..|items|] == items;
    IndexMapSize(items);
    IndexMapRange(items);
    forall i | 0 <= i < |items| ensures items[i] in m && m[items[i]] == i {
      IndexMapAt(items, i);
    }
    return Ok(m);
  }
}
