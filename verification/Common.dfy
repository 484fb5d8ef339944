/** Small types and sequence facts the other modules share. */
module Common {
  datatype Option<+T> = None | Some(value: T)

  predicate NoDuplicates<T(==)>(items: seq<T>) {
    forall i, j | 0 <= i < j < |items| :: items[i] != items[j]
  }

  /** `items` without every occurrence of `item`. */
  function Exclude<T(==)>(items: seq<T>, item: T): seq<T> {
    if items == [] then []
    else if items[0] == item then Exclude(items[1..], item)
    else [items[0]] + Exclude(items[1..], item)
  }

  /** `items` with `item` at the end, unless it is there already. */
  function Include<T(==)>(items: seq<T>, item: T): seq<T> {
    if item in items then items else items + [item]
  }

  lemma {:induction false} ExcludeSpec<T>(items: seq<T>, item: T)
    ensures forall x :: x in Exclude(items, item) <==> x in items && x != item
    ensures NoDuplicates(items) ==> NoDuplicates(Exclude(items, item))
  {
    if items != [] {
      ExcludeSpec(items[1..], item);
      if NoDuplicates(items) {
        assert forall k | 0 <= k < |items[1..]| :: items[1..][k] == items[k + 1];
        assert items[0] !in items[1..];
      }
    }
  }
}
