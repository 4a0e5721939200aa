/** Ambient conditions on the Martian surface that the engine compares against. */
module Mars {
  /** Surface temperature, K (-65 °C). */
  const TEMPERATURE: real := -65.0 + 273.15
  /** Surface pressure, Pa. */
  const PRESSURE: real := 610.0
}
