/** The tunable parameters of the servo driver: the module-level globals of the Python script. */
module Settings {

  /** One snapshot of the configuration globals. Channels are PCA9685 channel indices, angles are in
      degrees, pulse widths in microseconds, times in seconds. Python floats are modelled as exact reals. */
  datatype Config = Config(
    freqHz: int,
    leftCh: int,
    rightCh: int,
    leftRest: real,
    leftPress: real,
    rightRest: real,
    rightPress: real,
    minUs: int,
    maxUs: int,
    stepDeg: real,
    stepDelay: real,
    pressHold: real)

  /** The literal defaults used when no environment override is present. */
  const Defaults: Config :=
    Config(50, 15, 12, 90.0, 40.0, 90.0, 45.0, 500, 2500, 2.0, 0.01, 0.20)
}
