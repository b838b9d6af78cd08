/** Names shared by every part of the model: node ids and log entries. */
module Types {

  /** A node id; 0 is the reserved "no node" value. */
  type Id = nat

  const NONE: Id := 0

  type byte = b: int | 0 <= b < 256

  type Bytes = seq<byte>

  datatype Option<+T> = None | Some(value: T)

  /** A log entry. `index` is its 1-based log position, `term` the leader term that created it. */
  datatype Entry = Entry(index: nat, term: nat, data: Bytes)

  function Min(a: nat, b: nat): (r: nat)
    ensures r <= a && r <= b && (r == a || r == b)
  {
    if a <= b then a else b
  }

  function Max(a: nat, b: nat): (r: nat)
    ensures r >= a && r >= b && (r == a || r == b)
  {
    if a >= b then a else b
  }
}
