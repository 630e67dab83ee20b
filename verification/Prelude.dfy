/** Shared vocabulary: optional values, results, bytes, and hash functions with their collisions. */
module Prelude {

  datatype Option<+T> = None | Some(value: T)

  datatype Result<+T, +E> = Ok(value: T) | Err(error: E)

  type Byte = b: int | 0 <= b < 0x100

  type Bytes = seq<Byte>

  type Digest = d: Bytes | |d| == 32 witness seq(32, _ => 0)

  const U32: nat := 0x1_0000_0000
  const U64: nat := 0x1_0000_0000_0000_0000

  function Pow256(n: nat): (p: nat)
    ensures p >= 1
  {
    if n == 0 then 1 else 0x100 * Pow256(n - 1)
  }

  /** The number whose bytes are `b`, least significant first. */
  function LittleEndian(b: Bytes): nat {
    if b == [] then 0 else b[0] + 0x100 * LittleEndian(b[1..])
  }

  function Zeros(n: nat): (z: Bytes)
    ensures |z| == n && forall i :: 0 <= i < n ==> z[i] == 0
  {
    if n == 0 then [] else Zeros(n - 1) + [0]
  }

  predicate Distinct<T(==)>(s: seq<T>) {
    forall i, j :: 0 <= i < j < |s| ==> s[i] != s[j]
  }

  /** SHA-256 is an arbitrary function to 32 bytes: nothing is assumed about it. */
  type Sha256 = Bytes -> Digest

  /**
   * Two different members of `s` share a hash. Every result about hashes reads "the property holds, or
   * `h` collides inside this finite set of preimages that the computation itself produced".
   */
  ghost predicate CollidesIn<X, D>(h: X -> D, s: set<X>) {
    exists x, y :: x in s && y in s && x != y && h(x) == h(y)
  }

  lemma CollidesInMore<X, D>(h: X -> D, s: set<X>, t: set<X>)
    requires CollidesIn(h, s) && s <= t
    ensures CollidesIn(h, t)
  {
    var x, y :| x in s && y in s && x != y && h(x) == h(y);
    assert x in t && y in t;
  }

  /** The way every collision in this project is produced: two preimages, one hash. */
  lemma Collide<X, D>(h: X -> D, s: set<X>, x: X, y: X)
    requires x in s && y in s && h(x) == h(y)
    ensures x == y || CollidesIn(h, s)
  {
  }
}
