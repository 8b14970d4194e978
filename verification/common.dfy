/**
 Types shared by every version of the operation-result record: the optional
 value, Rust's `u16`, the 128-bit identifier, the external error record and the
 two key-wise unions the versions use to merge their `retval` maps.
 */
module Common {

  /** Rust's `Option<T>`. */
  datatype Option<+T> = None | Some(value: T) {

    /** `unwrap_or`: the carried value, or `default` when there is none. */
    function GetOr(default: T): (r: T)
      ensures Some? ==> r == value
      ensures None? ==> r == default
    {
      match this
      case Some(v) => v
      case None => default
    }
  }

  /** Rust's `u16`: every status code lives in this range. */
  type u16 = x: int | 0 <= x < 0x1_0000

  /** A `uuid::Uuid`: 128 bits. Generation is random in the program and is a parameter here. */
  type Uuid = x: int | 0 <= x < 0x1_0000_0000_0000_0000_0000_0000_0000_0000

  /**
   The external error a result can be built from: a numeric code, a message
   and optional structured details. The error crates behind it
   (`cdumay_error::Error`, `ErrorRepr`) are only read through these fields.
   */
  datatype ErrorRecord<V> = ErrorRecord(code: u16, message: string, details: Option<map<string, V>>)

  /** The larger of two status codes ("worst outcome wins"). */
  function Max(a: u16, b: u16): (m: u16)
    ensures a <= m && b <= m
    ensures m == a || m == b
  {
    if a > b then a else b
  }

  /** Taking the larger code can be bracketed either way. */
  lemma MaxAssociative(a: u16, b: u16, c: u16)
    ensures Max(Max(a, b), c) == Max(a, Max(b, c))
  {
  }

  /** Key-wise union in which the right map wins on a shared key. */
  function UnionRightWins<V>(left: map<string, V>, right: map<string, V>): (r: map<string, V>)
    ensures r.Keys == left.Keys + right.Keys
    ensures forall k :: k in right ==> r[k] == right[k]
    ensures forall k :: k in left && k !in right ==> r[k] == left[k]
  {
    left + right
  }

  /** Key-wise union in which the left map wins on a shared key. */
  function UnionLeftWins<V>(left: map<string, V>, right: map<string, V>): (r: map<string, V>)
    ensures r.Keys == left.Keys + right.Keys
    ensures forall k :: k in left ==> r[k] == left[k]
    ensures forall k :: k in right && k !in left ==> r[k] == right[k]
  {
    right + left
  }

  /** Right-wins union is associative: folding maps left to right needs no brackets. */
  lemma UnionRightWinsAssociative<V>(a: map<string, V>, b: map<string, V>, c: map<string, V>)
    ensures UnionRightWins(UnionRightWins(a, b), c) == UnionRightWins(a, UnionRightWins(b, c))
  {
  }

  /** Left-wins union is the right-wins union with its operands swapped. */
  lemma UnionLeftWinsIsSwappedRightWins<V>(a: map<string, V>, b: map<string, V>)
    ensures UnionLeftWins(a, b) == UnionRightWins(b, a)
  {
  }
}
