/** The build's configuration and the types every component shares. */
module Config {
  const TICKS: nat := 0x1_0000_0000        // a 32-bit tick count wraps here
  const MAX_DELAY: nat := 0xFFFF_FFFF      // portMAX_DELAY, the largest tick count
  const MAX_PRIORITIES: nat := 7           // configMAX_PRIORITIES

  /** A task handle. */
  type Task = nat
}
