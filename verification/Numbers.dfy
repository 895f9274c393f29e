/** Numbers the other modules share. */
module Numbers {
  /** Microseconds in a day. */
  const DAY: int := 86_400_000_000

  function Max(a: int, b: int): (r: int)
    ensures a <= r && b <= r && (r == a || r == b)
  {
    if a < b then b else a
  }

  /** The source's `max(lo, min(value, hi))`. */
  function Clamp(value: int, lo: int, hi: int): (r: int)
    requires lo <= hi
    ensures lo <= r <= hi
    ensures lo <= value <= hi ==> r == value
    ensures value < lo ==> r == lo
    ensures value > hi ==> r == hi
  {
    Max(lo, if value < hi then value else hi)
  }
}
