/** The width of the counters that wrap around. */
module Words {
  /** How many numbers 32 bits hold. */
  const WIDTH: nat := 0x1_0000_0000
}
