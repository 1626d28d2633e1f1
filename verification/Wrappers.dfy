/** Stock wrappers shared by the whole project. */
module Wrappers {
  datatype Option<+T> = None | Some(value: T)

  datatype Result<+T, +E> = Ok(value: T) | Err(error: E)

  /** `items.filter((x) => x !== item)` */
  function Without<T(==)>(items: seq<T>, item: T): seq<T> {
    if items == [] then []
    else if items[0] == item then Without(items[1..], item)
    else [items[0]] + Without(items[1..], item)
  }

  method FilterOut<T(==)>(items: seq<T>, item: T) returns (kept: seq<T>)
    ensures kept == Without(items, item)
  {
    kept := [];
    for i := 0 to |items|
      invariant Without(items, item) == kept + Without(items[i..], item)
    {
      assert items[i..][1..] == items[i + 1..];
      if items[i] != item {
        kept := kept + [items[i]];
      }
    }
  }
}
