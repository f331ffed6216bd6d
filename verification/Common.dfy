// What several modules share.
module Common {
  datatype Option<+T> = None | Some(value: T)

  /** The list without its element at `i`. */
  function RemoveAt<T>(s: seq<T>, i: nat): seq<T>
    requires i < |s|
  {
    s[..i] + s[i + 1..]
  }
}
