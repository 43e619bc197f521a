/** The password hasher (bcrypt with cost 10 in the service), reduced to the one
    property the session logic relies on: a value matches the hash of exactly
    itself. `Hash` has the shape of the test double of the service's tests. */
module Crypto {
  const HashPrefix := "hashed_"

  /** `bcrypt.hash(x, 10)`. */
  function Hash(x: string): (h: string)
    ensures h != "" && h != x
  {
    HashPrefix + x
  }

  /** `bcrypt.compare(x, h)`: does the plain value `x` match the stored hash `h`? */
  predicate Compare(x: string, h: string) {
    h == Hash(x)
  }

  /** A value matches the hash of `y` if and only if it is `y`. */
  lemma CompareHash(x: string, y: string)
    ensures Compare(x, Hash(y)) <==> x == y
  {
    if Hash(x) == Hash(y) {
      assert x == Hash(x)[|HashPrefix|..];
      assert y == Hash(y)[|HashPrefix|..];
    }
  }
}
