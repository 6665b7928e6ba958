/**
 * Configuration records of the drive base (artemis_config.py).
 *
 * Every record only stores its arguments: construction never validates or
 * transforms them, which is exactly what a datatype constructor does, and
 * nothing is mutated afterwards. The numbers are floats in the program and
 * reals here.
 */
module Config {

  /** Convergence thresholds of one control loop. */
  datatype ToleranceConfig = ToleranceConfig(speed: real, position: real)

  /** PID gains plus the heading and distance tolerances for one kind of motion. */
  datatype ControlConfig = ControlConfig(
    kp: real,
    ki: real,
    kd: real,
    headingTolerance: ToleranceConfig,
    distanceTolerance: ToleranceConfig)

  /**
   * A turn acceleration is either one value or an (acceleration, deceleration)
   * pair; the field's own comment allows both.
   */
  datatype Acceleration = Scalar(rate: real) | Pair(acceleration: real, deceleration: real)

  /** Speed and acceleration ceilings applied before every motion. */
  datatype MotionConfig = MotionConfig(
    straightSpeed: real,
    straightAcceleration: real,
    turnRate: real,
    turnAcceleration: Acceleration)

  /** Physical constants handed to the drive base when it is built. */
  datatype GeometryConfig = GeometryConfig(wheelDiameter: real, axleTrack: real)

  datatype ArtemisConfig = ArtemisConfig(
    geometryConfig: GeometryConfig,
    motionConfig: MotionConfig,
    straightControlConfig: ControlConfig,
    turnControlConfig: ControlConfig)

  /**
   * `ArtemisConfig.default()`: the robot's built-in tuning. Straight driving
   * and turning share their tolerances and differ in their gains.
   */
  function Default(): (c: ArtemisConfig)
    ensures c.straightControlConfig.headingTolerance == c.turnControlConfig.headingTolerance
    ensures c.straightControlConfig.distanceTolerance == c.turnControlConfig.distanceTolerance
    ensures c.straightControlConfig != c.turnControlConfig
    ensures c.motionConfig.turnAcceleration.Pair?
  {
    ArtemisConfig(
      GeometryConfig(63.0, 81.0),
      MotionConfig(350.0, 800.0, 100.0, Pair(750.0, 200.0)),
      ControlConfig(18500.0, 410.0, 100.0, ToleranceConfig(38.0, 5.0), ToleranceConfig(27.0, 5.0)),
      ControlConfig(12000.0, 21000.0, 3000.0, ToleranceConfig(38.0, 5.0), ToleranceConfig(27.0, 5.0)))
  }

  /** The default wheel geometry and speed limits; the turn acceleration is a pair, not a single value. */
  lemma DefaultGeometryAndMotion()
    ensures Default().geometryConfig == GeometryConfig(63.0, 81.0)
    ensures Default().motionConfig.straightSpeed == 350.0
    ensures Default().motionConfig.straightAcceleration == 800.0
    ensures Default().motionConfig.turnRate == 100.0
    ensures Default().motionConfig.turnAcceleration.Pair?
    ensures Default().motionConfig.turnAcceleration == Pair(750.0, 200.0)
  {
  }

  /** The default PID gains differ between straight driving and turning. */
  lemma DefaultGains()
    ensures var s := Default().straightControlConfig;
      s.kp == 18500.0 && s.ki == 410.0 && s.kd == 100.0
    ensures var t := Default().turnControlConfig;
      t.kp == 12000.0 && t.ki == 21000.0 && t.kd == 3000.0
  {
  }

  /** Straight and turn controls share their tolerances; only the gains differ. */
  lemma DefaultTolerancesShared()
    ensures Default().straightControlConfig.headingTolerance == Default().turnControlConfig.headingTolerance
    ensures Default().straightControlConfig.distanceTolerance == Default().turnControlConfig.distanceTolerance
    ensures Default().turnControlConfig.headingTolerance == ToleranceConfig(38.0, 5.0)
    ensures Default().turnControlConfig.distanceTolerance == ToleranceConfig(27.0, 5.0)
    ensures Default().straightControlConfig != Default().turnControlConfig
  {
  }
}
