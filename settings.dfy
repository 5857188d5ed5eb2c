// config/settings.py: the constants the modelled code reads.
module Settings {
  const MarketOpenHour: int := 9
  const MarketOpenMinute: int := 15
  const MarketCloseHour: int := 15
  const MarketCloseMinute: int := 30

  /** Microseconds since midnight of a wall-clock time. */
  function MicrosOfDay(hour: int, minute: int, second: int, micro: int): int
  {
    ((hour * 60 + minute) * 60 + second) * 1000000 + micro
  }

  const MarketOpenMicros: int := MicrosOfDay(MarketOpenHour, MarketOpenMinute, 0, 0)
  const MarketCloseMicros: int := MicrosOfDay(MarketCloseHour, MarketCloseMinute, 0, 0)
}
