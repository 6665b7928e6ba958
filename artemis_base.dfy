/**
 * `ArtemisBase` (artemis_base_v2.py): a drive base that keeps an estimate of
 * its position on the field and drives to waypoints.
 *
 * The pybricks `DriveBase` underneath is replaced by the record `Drive`: the
 * settings, heading-PID gains and tolerances last pushed into it, the angle it
 * measures, and the trace of motion commands issued to it. A motion that runs
 * to completion (no timeout, `wait=True`) is idealised: a turn ends exactly
 * `angle` degrees further round and a straight leaves the angle as it was.
 * A motion raced against a timeout, or started without waiting, leaves the
 * measured angle unknown.
 */
module Artemis {
  import opened Wrappers
  import opened Config
  import Geometry
  import Headings

  /** `Gear`: whether `drive_to` approaches a waypoint front first or back first. */
  datatype Gear = FWD | REV

  /**
   * What the motors do once a motion ends (pybricks `Stop`). The source's
   * `then` argument is called `stop` here, as `then` is a Dafny keyword.
   */
  datatype Stop = Coast | CoastSmart | Brake | BrakeSmart | Hold | NoStop

  /**
   * How a motion command is run: raced against a timeout (the wait flag is
   * not passed on), or plain, waiting for completion or not.
   */
  datatype Mode = Raced(timeout: real) | Plain(wait: bool)

  /** A motion issued to the drive base: a relative turn or a straight drive. */
  datatype Command =
    | TurnCommand(angle: real, stop: Stop, mode: Mode)
    | StraightCommand(distance: real, stop: Stop, mode: Mode)

  /** The four global limits of `DriveBase.settings`. */
  datatype Settings = Settings(
    straightSpeed: real,
    straightAcceleration: real,
    turnRate: real,
    turnAcceleration: Acceleration)

  /** Gains of the heading controller (`heading_control.pid`). */
  datatype Gains = Gains(kp: real, ki: real, kd: real)

  /** The state of the drive base as far as this layer sets or reads it. */
  datatype Drive = Drive(
    wheelDiameter: real,
    axleTrack: real,
    gyro: bool,
    settings: Settings,
    headingGains: Gains,
    headingTolerance: ToleranceConfig,
    distanceTolerance: ToleranceConfig,
    angle: real,
    trace: seq<Command>)

  /** The settings `_config_global` pushes: the motion configuration, unchanged. */
  function GlobalSettings(m: MotionConfig): (r: Settings)
  {
    Settings(m.straightSpeed, m.straightAcceleration, m.turnRate, m.turnAcceleration)
  }

  /** The drive base after the global settings and one control configuration are loaded. */
  function Loaded(d: Drive, m: MotionConfig, c: ControlConfig): (r: Drive)
  {
    d.(settings := GlobalSettings(m),
       headingGains := Gains(c.kp, c.ki, c.kd),
       headingTolerance := c.headingTolerance,
       distanceTolerance := c.distanceTolerance)
  }

  /** The per-call overrides of `straight`. */
  function StraightOverrides(s: Settings, speed: Option<real>, acceleration: Option<real>): (r: Settings)
  {
    var s := if speed.Some? then s.(straightSpeed := speed.value) else s;
    if acceleration.Some? then s.(straightAcceleration := acceleration.value) else s
  }

  /** The per-call overrides of `turn_to`; an acceleration given here is a single value. */
  function TurnOverrides(s: Settings, speed: Option<real>, acceleration: Option<real>): (r: Settings)
  {
    var s := if speed.Some? then s.(turnRate := speed.value) else s;
    if acceleration.Some? then s.(turnAcceleration := Scalar(acceleration.value)) else s
  }

  /** A timeout turns the motion into a raced one; otherwise `wait` is passed on. */
  function ModeOf(timeout: Option<real>, wait: bool): (r: Mode)
  {
    if timeout.Some? then Raced(timeout.value) else Plain(wait)
  }

  /**
   * In reverse the robot faces away from the waypoint and drives backwards:
   * the same length, the opposite sign, half a turn round.
   */
  function GearTrajectory(t: Geometry.Trajectory, gear: Gear): (r: Geometry.Trajectory)
    ensures Geometry.Abs(r.distance) == Geometry.Abs(t.distance)
    ensures gear == FWD ==> r == t
    ensures gear == REV ==> r.distance == -t.distance && Headings.Congruent(r.heading, t.heading + 180.0)
  {
    assert Headings.Congruent(t.heading + 180.0, t.heading + 180.0) by {
      Headings.CongruentByTurns(t.heading + 180.0, t.heading + 180.0, 0);
    }
    if gear == REV then Geometry.Trajectory(t.heading + 180.0, -t.distance) else t
  }

  /** How far a command turns the robot when it runs to completion. */
  function Rotation(c: Command): (r: real)
  {
    if c.TurnCommand? then c.angle else 0.0
  }

  class ArtemisBase {
    const geometry: GeometryConfig
    const motion: MotionConfig
    const straightControl: ControlConfig
    const turnControl: ControlConfig
    /** The firmware's `umath`, used by `geometry.compute_trajectory`. */
    const math: Geometry.Umath
    /** `geometry.compute_new_position(x, y, heading, distance)`, whose definition is not part of this model. */
    const newPosition: (real, real, real, real) -> (real, real)

    /** The position estimate. */
    var x: real
    var y: real
    var drive: Drive

    /**
     * Builds the drive base from the configuration's wheel geometry, keeps the
     * four configuration sections, switches the gyro on and resets the pose.
     * `factory` is the drive base as pybricks creates it.
     */
    constructor(config: ArtemisConfig, math: Geometry.Umath,
                newPosition: (real, real, real, real) -> (real, real), factory: Drive)
      ensures geometry == config.geometryConfig && motion == config.motionConfig
      ensures straightControl == config.straightControlConfig && turnControl == config.turnControlConfig
      ensures this.math == math && this.newPosition == newPosition
      ensures drive == factory.(wheelDiameter := config.geometryConfig.wheelDiameter,
                                axleTrack := config.geometryConfig.axleTrack,
                                gyro := true,
                                trace := [])
      ensures x == 0.0 && y == 0.0
    {
      geometry := config.geometryConfig;
      motion := config.motionConfig;
      straightControl := config.straightControlConfig;
      turnControl := config.turnControlConfig;
      this.math := math;
      this.newPosition := newPosition;
      drive := factory.(wheelDiameter := config.geometryConfig.wheelDiameter,
                        axleTrack := config.geometryConfig.axleTrack,
                        trace := []);
      new;
      drive := drive.(gyro := true);
      ResetPosition();
    }

    /** `_config_global`: pushes all four motion limits, whatever was set before. */
    method ConfigGlobal()
      modifies this`drive
      ensures drive == old(drive).(settings := GlobalSettings(motion))
    {
      drive := drive.(settings := GlobalSettings(motion));
    }

    /** `_configure_straight_control`: global limits, then the straight gains and tolerances. */
    method ConfigureStraightControl()
      modifies this`drive
      ensures drive == Loaded(old(drive), motion, straightControl)
    {
      ConfigGlobal();
      drive := drive.(headingGains := Gains(straightControl.kp, straightControl.ki, straightControl.kd));
      drive := drive.(headingTolerance := straightControl.headingTolerance);
      drive := drive.(distanceTolerance := straightControl.distanceTolerance);
    }

    /** `_configure_turn_control`: global limits, then the turn gains and tolerances. */
    method ConfigureTurnControl()
      modifies this`drive
      ensures drive == Loaded(old(drive), motion, turnControl)
    {
      ConfigGlobal();
      drive := drive.(headingGains := Gains(turnControl.kp, turnControl.ki, turnControl.kd));
      drive := drive.(headingTolerance := turnControl.headingTolerance);
      drive := drive.(distanceTolerance := turnControl.distanceTolerance);
    }

    /** `reset_position`: overwrites the position estimate and nothing else. */
    method ResetPosition(x: real := 0.0, y: real := 0.0)
      modifies this`x, this`y
      ensures this.x == x && this.y == y
    {
      this.x := x;
      this.y := y;
    }

    /**
     * Issues one command to the drive base. Only a plain, waited command is
     * known to have finished, so only then is the new angle known.
     */
    method Perform(c: Command)
      modifies this`drive
      ensures drive == old(drive).(angle := drive.angle, trace := old(drive.trace) + [c])
      ensures c.mode == Plain(true) ==> drive.angle == old(drive.angle) + Rotation(c)
    {
      var angle: real;
      if c.mode == Plain(true) {
        angle := drive.angle + Rotation(c);
      } else {
        angle := *;
      }
      drive := drive.(angle := angle, trace := drive.trace + [c]);
    }

    /**
     * `straight`: loads the straight configuration, applies the overrides,
     * issues one straight command, then moves the position estimate by the
     * commanded distance along the angle measured afterwards, even when the
     * timeout cut the motion short.
     */
    method Straight(distance: real, stop: Stop := Hold, wait: bool := true,
                    speed: Option<real> := None, acceleration: Option<real> := None,
                    timeout: Option<real> := None)
      modifies this`drive, this`x, this`y
      ensures drive == Loaded(old(drive), motion, straightControl).(
                settings := StraightOverrides(GlobalSettings(motion), speed, acceleration),
                angle := drive.angle,
                trace := old(drive.trace) + [StraightCommand(distance, stop, ModeOf(timeout, wait))])
      ensures timeout.None? && wait ==> drive.angle == old(drive.angle)
      ensures (x, y) == newPosition(old(x), old(y), drive.angle, distance)
    {
      ConfigureStraightControl();
      if speed.Some? {
        drive := drive.(settings := drive.settings.(straightSpeed := speed.value));
      }
      if acceleration.Some? {
        drive := drive.(settings := drive.settings.(straightAcceleration := acceleration.value));
      }
      if timeout.Some? {
        Perform(StraightCommand(distance, stop, Raced(timeout.value)));
      } else {
        Perform(StraightCommand(distance, stop, Plain(wait)));
      }
      var (newX, newY) := newPosition(x, y, drive.angle, distance);
      ResetPosition(newX, newY);
    }

    /**
     * `turn_to`: loads the turn configuration, applies the overrides, and
     * issues the shortest relative turn from the measured angle to `heading`.
     * A turn that runs to completion faces `heading` modulo a full turn.
     */
    method TurnTo(heading: real, stop: Stop := Hold, wait: bool := true,
                  speed: Option<real> := None, acceleration: Option<real> := None,
                  timeout: Option<real> := None)
      modifies this`drive
      ensures drive == Loaded(old(drive), motion, turnControl).(
                settings := TurnOverrides(GlobalSettings(motion), speed, acceleration),
                angle := drive.angle,
                trace := old(drive.trace) + [TurnCommand(Headings.RelativeTurn(heading - old(drive.angle)), stop, ModeOf(timeout, wait))])
      ensures var turn := drive.trace[|drive.trace| - 1].angle;
        -180.0 < turn <= 180.0 && Headings.Congruent(turn, heading - old(drive.angle))
      ensures timeout.None? && wait ==> Headings.Mod360(drive.angle) == Headings.Mod360(heading)
    {
      ConfigureTurnControl();
      if speed.Some? {
        drive := drive.(settings := drive.settings.(turnRate := speed.value));
      }
      if acceleration.Some? {
        drive := drive.(settings := drive.settings.(turnAcceleration := Scalar(acceleration.value)));
      }
      var current := drive.angle;
      var turn := Headings.RelativeTurn(heading - current);
      if timeout.Some? {
        Perform(TurnCommand(turn, stop, Raced(timeout.value)));
      } else {
        Perform(TurnCommand(turn, stop, Plain(wait)));
        if wait {
          Headings.TurnReachesTarget(current, heading);
        }
      }
    }

    /**
     * `drive_to`: turns toward the waypoint (away from it in reverse), drives
     * the trajectory's distance with the same timeout, and then sets the
     * position estimate to the waypoint itself.
     */
    method DriveTo(x: real, y: real, stop: Stop := Hold, wait: bool := true,
                   gear: Gear := FWD, timeout: Option<real> := None)
      modifies this`drive, this`x, this`y
      ensures this.x == x && this.y == y
      ensures var t := GearTrajectory(Geometry.ComputeTrajectory(math, old(this.x), old(this.y), x, y), gear);
        && drive.trace == old(drive.trace) + [
             TurnCommand(Headings.RelativeTurn(t.heading - old(drive.angle)), Hold, ModeOf(timeout, true)),
             StraightCommand(t.distance, stop, ModeOf(timeout, wait))]
        && (timeout.None? && wait ==> Headings.Mod360(drive.angle) == Headings.Mod360(t.heading))
      ensures drive == Loaded(old(drive), motion, straightControl).(angle := drive.angle, trace := drive.trace)
    {
      var t := GearTrajectory(Geometry.ComputeTrajectory(math, this.x, this.y, x, y), gear);
      TurnTo(t.heading, timeout := timeout);
      Straight(t.distance, stop := stop, wait := wait, timeout := timeout);
      ResetPosition(x, y);
    }
  }

  /** Overrides touch only the two limits of their own kind of motion, and only when given. */
  lemma OverridesAreLocal(s: Settings, speed: Option<real>, acceleration: Option<real>)
    ensures var r := StraightOverrides(s, speed, acceleration);
      && r.turnRate == s.turnRate && r.turnAcceleration == s.turnAcceleration
      && r.straightSpeed == (if speed.Some? then speed.value else s.straightSpeed)
      && r.straightAcceleration == (if acceleration.Some? then acceleration.value else s.straightAcceleration)
    ensures var r := TurnOverrides(s, speed, acceleration);
      && r.straightSpeed == s.straightSpeed && r.straightAcceleration == s.straightAcceleration
      && r.turnRate == (if speed.Some? then speed.value else s.turnRate)
      && r.turnAcceleration == (if acceleration.Some? then Scalar(acceleration.value) else s.turnAcceleration)
    ensures StraightOverrides(s, None, None) == s && TurnOverrides(s, None, None) == s
  {
  }

  /**
   * Loading a configuration forgets whatever settings, gains and tolerances
   * an earlier call left behind, so a per-call override lasts one motion.
   */
  lemma ReloadForgetsOverrides(d: Drive, earlier: Drive, m: MotionConfig, c: ControlConfig)
    requires earlier == d.(settings := earlier.settings, headingGains := earlier.headingGains,
                           headingTolerance := earlier.headingTolerance,
                           distanceTolerance := earlier.distanceTolerance)
    ensures Loaded(earlier, m, c) == Loaded(d, m, c)
    ensures Loaded(d, m, c).settings == GlobalSettings(m)
  {
  }

  /** With a timeout the wait flag has no effect on the command issued. */
  lemma TimeoutIgnoresWait(timeout: real, wait: bool)
    ensures ModeOf(Some(timeout), wait) == ModeOf(Some(timeout), !wait) == Raced(timeout)
    ensures ModeOf(None, wait) == Plain(wait)
  {
  }

  /**
   * Reverse gear negates the distance and faces the other way: the turn it
   * issues differs by half a revolution from the forward one.
   */
  lemma ReverseGear(t: Geometry.Trajectory, angle: real)
    ensures GearTrajectory(t, FWD) == t
    ensures GearTrajectory(t, REV).distance == -t.distance
    ensures Headings.Congruent(Headings.RelativeTurn(GearTrajectory(t, REV).heading - angle),
                               Headings.RelativeTurn(t.heading - angle) + 180.0)
  {
    Headings.OppositeTurn(t.heading, angle);
  }
}
