/**
 * `LinqExtensions.FirstOrDefault(items, predicate, predicateParam)`: a `foreach` scan that
 * returns the first item `matches` accepts, passing it the same extra parameter
 * every time, or `default` when no item matches.
 */
module LinqExtensions {
  import opened Wrappers

  /** The first item of `items` for which `matches(item, param)` holds; `None` stands for `default`. */
  function FirstMatch<T, P>(items: seq<T>, matches: (T, P) -> bool, param: P): Option<T>
  {
    if items == [] then None
    else if matches(items[0], param) then Some(items[0])
    else FirstMatch(items[1..], matches, param)
  }

  /** `FirstMatch` finds something exactly when some item matches, and what it finds is the earliest match. */
  lemma {:induction false} FirstMatchIsFirst<T, P>(items: seq<T>, matches: (T, P) -> bool, param: P)
    ensures FirstMatch(items, matches, param).None? <==> forall i | 0 <= i < |items| :: !matches(items[i], param)
    ensures FirstMatch(items, matches, param).Some? ==>
              exists k | 0 <= k < |items| ::
                && items[k] == FirstMatch(items, matches, param).value
                && matches(items[k], param)
                && forall j | 0 <= j < k :: !matches(items[j], param)
  {
    if items != [] && !matches(items[0], param) {
      var rest := items[1..];
      FirstMatchIsFirst(rest, matches, param);
      assert forall i | 1 <= i < |items| :: items[i] == rest[i - 1];
      if FirstMatch(rest, matches, param).Some? {
        var k :| 0 <= k < |rest| && rest[k] == FirstMatch(rest, matches, param).value
                 && matches(rest[k], param) && forall j | 0 <= j < k :: !matches(rest[j], param);
        assert items[k + 1] == rest[k];
      }
    } else if items != [] {
      assert items[0] == FirstMatch(items, matches, param).value;
    }
  }

  /**
   * The scan itself. `examined` counts the items handed to the predicate: the scan stops
   * at the first match and otherwise reads every item.
   */
  method FirstOrDefault<T, P>(items: seq<T>, matches: (T, P) -> bool, predicateParam: P)
    returns (r: Option<T>, ghost examined: nat)
    ensures r == FirstMatch(items, matches, predicateParam)
    ensures examined <= |items|
    ensures r.None? ==> examined == |items| && forall i | 0 <= i < |items| :: !matches(items[i], predicateParam)
    ensures r.Some? ==> 0 < examined && items[examined - 1] == r.value && matches(r.value, predicateParam)
    ensures forall j | 0 <= j < examined - 1 :: !matches(items[j], predicateParam)
  {
    examined := 0;
    for i := 0 to |items|
      invariant examined == i
      invariant forall j | 0 <= j < i :: !matches(items[j], predicateParam)
      invariant FirstMatch(items, matches, predicateParam) == FirstMatch(items[i..], matches, predicateParam)
    {
      examined := i + 1;
      if matches(items[i], predicateParam) {
        return Some(items[i]), examined;
      }
      assert items[i..][1..] == items[i + 1..];
    }
    return None, examined;
  }
}
