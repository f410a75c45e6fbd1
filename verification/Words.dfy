// Go's 64-bit integers, which wrap around, and its time differences, which saturate.
module Words {

  const TWO62 := 0x4000_0000_0000_0000
  const TWO63 := 0x8000_0000_0000_0000
  const TWO64 := 0x1_0000_0000_0000_0000

  predicate Int64(x: int) {
    -TWO63 <= x < TWO63
  }

  function Wrap(x: int): (r: int)
    ensures Int64(r) && (Int64(x) ==> r == x)
  {
    (x + TWO63) % TWO64 - TWO63
  }

  function Saturate(x: int): (r: int)
    ensures Int64(r) && (Int64(x) ==> r == x)
  {
    if x < -TWO63 then -TWO63 else if x >= TWO63 then TWO63 - 1 else x
  }
}
