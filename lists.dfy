/** The parts of `List<T>` the device registry relies on. */
module Lists {
  /** No element occurs twice. */
  predicate NoDuplicates<T(==)>(s: seq<T>) {
    forall i, j :: 0 <= i < j < |s| ==> s[i] != s[j]
  }

  /** The position of the first occurrence of `x` in `s`. */
  function FirstIndex<T(==)>(s: seq<T>, x: T): (k: nat)
    requires x in s
    ensures k < |s| && s[k] == x && x !in s[..k]
  {
    if s[0] == x then 0 else 1 + FirstIndex(s[1..], x)
  }

  /** `List<T>.Remove(x)`: drops the first occurrence of `x`; a list without `x` is left as it is. */
  function RemoveFirst<T(==)>(s: seq<T>, x: T): seq<T>
  {
    if s == [] then []
    else if s[0] == x then s[1..]
    else [s[0]] + RemoveFirst(s[1..], x)
  }

  /** Removing an element that is not there changes nothing. */
  lemma {:induction false} RemoveFirstAbsent<T>(s: seq<T>, x: T)
    requires x !in s
    ensures RemoveFirst(s, x) == s
  {
    if s != [] {
      RemoveFirstAbsent(s[1..], x);
    }
  }

  /** Removing an element that is there cuts out exactly its first occurrence and keeps the order. */
  lemma {:induction false} RemoveFirstSplit<T>(s: seq<T>, x: T)
    requires x in s
    ensures RemoveFirst(s, x) == s[..FirstIndex(s, x)] + s[FirstIndex(s, x) + 1..]
  {
    if s[0] != x {
      RemoveFirstSplit(s[1..], x);
      assert s[..FirstIndex(s, x)] == [s[0]] + s[1..][..FirstIndex(s[1..], x)];
    }
  }

  /** In a list without duplicates, `Remove(x)` leaves exactly the other elements, still without duplicates. */
  lemma {:induction false} RemoveFirstElements<T>(s: seq<T>, x: T)
    requires NoDuplicates(s)
    ensures NoDuplicates(RemoveFirst(s, x))
    ensures forall y :: y in RemoveFirst(s, x) <==> y in s && y != x
    ensures |RemoveFirst(s, x)| == if x in s then |s| - 1 else |s|
  {
    if s != [] {
      assert NoDuplicates(s[1..]) by {
        forall i, j | 0 <= i < j < |s[1..]| ensures s[1..][i] != s[1..][j] {
          assert s[1..][i] == s[i + 1] && s[1..][j] == s[j + 1];
        }
      }
      assert s[0] !in s[1..] by {
        forall j | 0 <= j < |s[1..]| ensures s[1..][j] != s[0] {
          assert s[1..][j] == s[j + 1];
        }
      }
      RemoveFirstElements(s[1..], x);
      if s[0] != x {
        var r := RemoveFirst(s[1..], x);
        assert RemoveFirst(s, x) == [s[0]] + r;
        forall i, j | 0 <= i < j < |[s[0]] + r| ensures ([s[0]] + r)[i] != ([s[0]] + r)[j] {
          if i == 0 {
            assert ([s[0]] + r)[j] == r[j - 1];
            assert r[j - 1] in r;
          } else {
            assert ([s[0]] + r)[i] == r[i - 1] && ([s[0]] + r)[j] == r[j - 1];
          }
        }
      }
    }
  }

  /** `Remove(x)` keeps every element other than `x` and adds none. */
  lemma {:induction false} RemoveFirstMember<T>(s: seq<T>, x: T, y: T)
    ensures y in RemoveFirst(s, x) ==> y in s
    ensures y in s && y != x ==> y in RemoveFirst(s, x)
  {
    if s != [] && s[0] != x {
      RemoveFirstMember(s[1..], x, y);
      assert RemoveFirst(s, x) == [s[0]] + RemoveFirst(s[1..], x);
      assert y in s ==> y == s[0] || y in s[1..];
    }
  }

  /** Appending an element the list lacks keeps it free of duplicates. */
  lemma AppendNoDuplicates<T>(s: seq<T>, x: T)
    requires NoDuplicates(s) && x !in s
    ensures NoDuplicates(s + [x])
  {
    forall i, j | 0 <= i < j < |s + [x]| ensures (s + [x])[i] != (s + [x])[j] {
      if j == |s| {
        assert (s + [x])[i] == s[i];
      } else {
        assert (s + [x])[i] == s[i] && (s + [x])[j] == s[j];
      }
    }
  }
}
