/** Constants of the real-time class. */
module RtLimits {

  const MAX_RT_PRIO: nat := 100

  /** Unlimited runtime. */
  const RUNTIME_INF: nat := 0xFFFF_FFFF_FFFF_FFFF
}
