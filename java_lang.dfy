/** The pieces of java.lang the model needs: 32-bit `int` arithmetic and the exceptions thrown. */
module JavaLang {

  const MIN_INT: int := -0x8000_0000
  const MAX_INT: int := 0x7fff_ffff
  const INT_RANGE: int := 0x1_0000_0000

  /** The values of a Java `int`. */
  type Int32 = x: int | MIN_INT <= x <= MAX_INT

  /** The exceptions the modelled code throws, each with its message. */
  datatype Exception =
    | NullPointerException(message: string)
    | IllegalArgumentException(message: string)

  /**
   * The `int` a Java addition or multiplication yields for the mathematical
   * value `x`: the unique number of the `int` range congruent to `x` modulo 2^32.
   */
  function Wrap(x: int): (r: Int32)
    ensures (r - x) % INT_RANGE == 0
    ensures MIN_INT <= x <= MAX_INT ==> r == x
  {
    (x - MIN_INT) % INT_RANGE + MIN_INT
  }

  /** Only one `int` is congruent to `x`, so wrapping is determined by the congruence class. */
  lemma WrapUnique(x: int, r: Int32)
    requires (r - x) % INT_RANGE == 0
    ensures Wrap(x) == r
  {
  }

  /** Wrapping an intermediate result does not change a wrapped sum: Java's `+=` loop sums modulo 2^32. */
  lemma WrapAdd(a: int, b: int)
    ensures Wrap(Wrap(a) + b) == Wrap(a + b)
  {
    WrapUnique(a + b, Wrap(Wrap(a) + b));
  }
}
