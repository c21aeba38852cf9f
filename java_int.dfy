/** Java's 32-bit signed `int`, for the places where its wrap-around is
    visible. */
module JavaInt {

  const MIN_INT: int := -0x8000_0000
  const MAX_INT: int := 0x7fff_ffff

  newtype int32 = x: int | MIN_INT <= x <= MAX_INT
}
