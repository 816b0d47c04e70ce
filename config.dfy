/** The analyzer's configuration record and its system-wide defaults. */
module Config {
  datatype SensorConfig = SensorConfig(
    slopeCritical: real,
    slopeWarning: real,
    biasCritical: real,
    biasWarning: real,
    noiseCritical: real,       // carried by the record; no rule of the scorer reads it
    hysteresisCritical: real,
    dfaCritical: real,
    minDataPoints: int)

  const Default: SensorConfig := SensorConfig(
    slopeCritical := 0.1,
    slopeWarning := 0.05,
    biasCritical := 2.0,
    biasWarning := 1.0,
    noiseCritical := 1.5,
    hysteresisCritical := 0.5,
    dfaCritical := 0.8,
    minDataPoints := 50)
}
