# Artemis drive layer in Dafny

This project models the position-tracking drive layer of the Artemis robot code (pybricks, Python). It has four parts:

- `geometry.compute_trajectory` (module `Geometry`). It turns a start and a target point into a heading and a distance. The heading is measured from the +y axis, because `atan2` receives `(dx, dy)`.
- The configuration records and `ArtemisConfig.default` (module `Config`).
- `ArtemisBase` (module `Artemis`). This is a class with the position estimate `x`, `y` and the drive base state `drive`. The drive state holds:
  - the settings, heading-PID gains and tolerances last pushed in;
  - the measured angle;
  - the trace of motion commands issued.

  Every method states the whole new state. The relevant parts are these:
  - Configuration is reloaded before every motion, so per-call overrides last one call.
  - The turn issued by `turn_to` is the shortest one.
  - A timeout turns a motion into a raced one.
  - Reverse gear inverts the trajectory.
  - `drive_to` snaps the pose to the waypoint.
- The hardware-free `Base` of `fake.py` (module `Fake`). It is a class with `x`, `y`, `heading` and the call log. The log is written by the `log` decorator and is formatted into a table with column widths.

Module `Headings` holds the heading arithmetic used by both `turn_to` methods:
- Python's float `%` with 360, which is floor modulo and always in [0, 360).
- The relative turn in (-180, 180].
- Congruence modulo a full turn.

Module `Wrappers` holds `Option`, which stands for Python's `X | None`.

Headings, distances and positions are exact reals. The `umath` functions `sqrt`, `atan2` and `degrees` are a record of functions (`Geometry.Umath`). The laws they obey are the predicate `Geometry.Laws`, and it appears only as a precondition of the geometry lemmas. `geometry.compute_new_position` is called by `straight`, but its definition is not part of this model. It is the function-valued field `newPosition` of `ArtemisBase`, and nothing is assumed about it.

## Modelling notes

- **Turn range.** The turn (artemis_base_v2.py:218-220, fake.py:92-94) is `(heading - current) % 360`, less 360 when above 180. So it lies in (-180, 180]: a half turn is +180, never -180.
- **Duplicate `ToleranceConfig`.** It is declared twice, at artemis_config.py:3-16 and again at 78-91, with identical bodies. The later declaration is the one in effect. There is one datatype, `Config.ToleranceConfig`, because the two declarations cannot be told apart.
- **Plain constructors.** The configuration constructors store their arguments unchanged and validate nothing, so they are plain datatype constructors.
- **Keyword clash.** `then` is a Dafny keyword, so the `then` argument of the motion methods is called `stop`. The log keys still read `"then"`.

## Model

| member | source | states |
|---|---|---|
| Headings.Mod360 | artemis_base_v2.py:218 | `v % 360` lies in [0, 360) and differs from `v` by a whole number of turns |
| Headings.RelativeTurn | artemis_base_v2.py:217-220 | the relative turn lies in (-180, 180] and is congruent to `heading - current` modulo 360 |
| Headings.Mod360Canonical | fake.py:95 | two readings have the same `% 360` exactly when they are congruent modulo 360 (both directions) |
| Headings.RelativeTurnUnique | artemis_base_v2.py:218-220 | any turn in (-180, 180] congruent to the delta is the relative turn |
| Headings.RelativeTurnIsShortest | fake.py:92-94 | no turn reaching the same direction has a smaller magnitude than the relative turn |
| Headings.TurnReachesTarget | fake.py:92-95 | `(current + turn) % 360 == heading % 360` for every current and target heading |
| Headings.OppositeTurn | artemis_base_v2.py:245-248 | the turn toward `heading + 180` is congruent to the turn toward `heading` plus half a turn |
| Geometry.ComputeTrajectory | geometry.py:5-26 | the trajectory is `degrees(atan2(dx, dy))` and `sqrt(dx² + dy²)`; under the `umath` laws its distance is non-negative with square `dx² + dy²` and its heading lies in (-180, 180] |
| Geometry.DistanceIsLength | geometry.py:22-24 | the distance is never negative and its square is `dx² + dy²` |
| Geometry.DistanceZeroAtStart | geometry.py:22-24 | driving to the start point is a distance of 0 |
| Geometry.TranslationInvariant | geometry.py:22-26 | translating start and target by the same offset leaves heading and distance unchanged |
| Geometry.SwapKeepsDistance | geometry.py:22-24 | swapping start and target keeps the distance |
| Geometry.HeadingRange | geometry.py:25 | the heading lies in (-180, 180] |
| Geometry.HeadingOnAxes | geometry.py:25 | heading is 0 toward +y, 90 toward +x, 180 toward -y and -90 toward -x, since `atan2` gets `(dx, dy)` |
| Geometry.DistanceOnAxes | geometry.py:24 | a move along one axis has the absolute coordinate change as its distance |
| Config.Default | artemis_config.py:107-146 | the default configuration shares heading and distance tolerances between straight and turn control, differs in gains, and sets the turn acceleration as a pair |
| Config.DefaultGeometryAndMotion | artemis_config.py:110-118 | the default wheel diameter is 63 and the axle track 81; the default speeds are 350, 800 and 100; the turn acceleration is the pair (750, 200) |
| Config.DefaultGains | artemis_config.py:120-136 | the default straight gains are 18500/410/100 and the default turn gains are 12000/21000/3000 |
| Config.DefaultTolerancesShared | artemis_config.py:120-145 | straight and turn share heading tolerance (38, 5) and distance tolerance (27, 5), and differ only in gains |
| Artemis.ArtemisBase.constructor | artemis_base_v2.py:37-65 | the drive base gets the configured wheel geometry and the gyro is on; the four configuration sections are kept; the trace is empty and the pose is (0, 0) |
| Artemis.ArtemisBase.ConfigGlobal | artemis_base_v2.py:67-73 | all four global settings are the motion configuration; nothing else changes |
| Artemis.ArtemisBase.ConfigureStraightControl | artemis_base_v2.py:75-89 | global settings, straight kp/ki/kd, and heading and distance tolerances are loaded; nothing else changes |
| Artemis.ArtemisBase.ConfigureTurnControl | artemis_base_v2.py:91-105 | global settings, turn kp/ki/kd, and heading and distance tolerances are loaded; nothing else changes |
| Artemis.ArtemisBase.ResetPosition | artemis_base_v2.py:107-113 | `x`, `y` become the arguments (default 0, 0); the drive base is untouched |
| Artemis.ArtemisBase.Straight | artemis_base_v2.py:130-175 | straight config loaded, overrides touch only the straight limits, one straight command is appended (raced with a timeout, else plain with `wait`), and the pose is `compute_new_position` of the old pose, the post-motion angle and the distance; a completed drive keeps the angle |
| Artemis.ArtemisBase.TurnTo | artemis_base_v2.py:192-230 | turn config loaded, overrides touch only `turn_rate`/`turn_acceleration`; one turn command is appended; its angle is in (-180, 180] and congruent to `heading - angle`; a completed turn faces `heading` modulo 360; the pose is untouched |
| Artemis.ArtemisBase.DriveTo | artemis_base_v2.py:232-252 | the trace grows by the turn toward the (gear-adjusted) trajectory heading and then the straight of its distance, both with the same timeout; the pose ends exactly at (x, y); settings are un-overridden |
| Artemis.GearTrajectory | artemis_base_v2.py:245-247 | forward gear keeps the trajectory; reverse negates the distance (same length) and faces half a turn round |
| Artemis.OverridesAreLocal | artemis_base_v2.py:150-154 | a `straight` override changes only its own straight limit and only when given; likewise a `turn_to` override (lines 213-216) changes only `turn_rate`/`turn_acceleration` |
| Artemis.ReloadForgetsOverrides | artemis_base_v2.py:67-73 | loading configuration gives the same drive state whatever settings, gains and tolerances were left by an earlier call |
| Artemis.TimeoutIgnoresWait | artemis_base_v2.py:155-168 | with a timeout the command is raced and `wait` makes no difference; without one, `wait` is passed on |
| Artemis.ReverseGear | artemis_base_v2.py:245-247 | forward gear keeps the trajectory; reverse negates the distance and its turn differs from the forward turn by half a revolution |
| Fake.LookupFindsKey | fake.py:136 | `entry[key]` succeeds exactly when `key` is one of the entry's keys |
| Fake.LookupFirst | fake.py:136 | a lookup returns the value stored under the key |
| Fake.MakeEntry | fake.py:33-45 | the entry the decorator builds always has keys `method`, `params`, `x`, `y`, `heading` in that order, with a dict of params |
| Fake.Cell | fake.py:135-139 | a cell can be formatted exactly when the entry has the key and, for `params`, its value is a dict |
| Fake.EntryRecordsState | fake.py:33-45 | an entry has keys `method`, `params`, `x`, `y`, `heading` holding the name, the bound arguments and the public fields, and no underscore field |
| Fake.StandardCellsDefined | fake.py:131-139 | every column of a decorator-written entry can be formatted |
| Fake.FormatRows | fake.py:128-141 | an empty log gives empty headers and rows; otherwise headers are the first entry's keys and there is one row per entry of header length, each cell the entry's formatted value; it fails exactly when some cell cannot be formatted |
| Fake.ColumnWidths | fake.py:163 | there is one width per column of the `zip`, i.e. the shortest of header and rows; each width bounds the header and every cell of its column and equals one of them |
| Fake.Base.Record | fake.py:29-48 | the decorator appends exactly one entry, built from the state after the body ran |
| Fake.Base.constructor | fake.py:57-70 | `x = y = heading = 0` and the log is the single `__init__` entry with `verbose` bound |
| Fake.Base.ResetPosition | fake.py:72-81 | `x`, `y` are overwritten, `heading` is unchanged, and one `reset_position` entry is appended |
| Fake.Base.TurnTo | fake.py:83-103 | the new heading is `heading % 360` (so in [0, 360) and congruent to the request); one `turn_to` entry with defaults applied is appended |
| Fake.Base.DriveTo | fake.py:105-122 | the heading becomes the trajectory heading `% 360` and the position exactly (x, y); the log grows by two: the nested `turn_to` entry (old position) first, then `drive_to` |
| Fake.Base.FormatLogRows | fake.py:128-141 | on a log written only by the decorator, formatting succeeds with the standard keys as headers, one row per entry, each row of header length, and each cell the entry's formatted value |

## Left out

- Pybricks hardware (`DriveBase.straight`/`turn`/`settings`/`angle`, `heading_control`, `distance_control`, `Motor`, `PrimeHub`, `ColorSensor`): these are foreign devices. They are replaced by the `Artemis.Drive` record and `ArtemisBase.Perform`, which appends the command to the trace.
- Artemis.ArtemisBase.Perform: completed motions are idealised. A plain waited turn ends exactly `angle` further round, and a plain waited straight keeps the angle. Real motors stop within the configured tolerances, not exactly.
- The `multitask(..., race=True)` timeout race (`_straight_with_timeout`, `_turn_with_timeout`): this is concurrency. A raced command, or one issued without waiting, leaves the measured angle unknown, and the model does not bound it.
- `ArtemisBase.default` and `get_hub`: they only construct devices. The drive base as pybricks creates it is the constructor's `factory` argument.
- Artemis.ArtemisBase.Straight: `geometry.compute_new_position` is not part of this model. The new pose is stated only as that function applied to the old pose, the angle and the distance.
- Floating-point rounding in `sqrt`, `atan2`, `degrees`, `%` and arithmetic: the model works over exact reals.
- Geometry.DistanceIsLength: the converse "distance 0 only at the start point" is not stated. It needs a law that only 0 has square root 0, and that law is not part of `Laws`.
- `__repr__` of the configuration classes, and the printing code of `fake.py` (`_rich_table`, verbose `print`s, line formatting of `_ascii_table`, `table`, `demo`): these are display only.
- Fake.Value: Python ints and floats are both `Num(real)`. The fake logs the int `0` from `__init__` and the `reset_position` defaults, and ints stay ints through `turn_to` when the request is an int, while `drive_to` logs float headings from `atan2`. Python prints `0` and `0.0` differently, and `str`/`repr` are parameters over `Value`, so the cell texts and column widths do not distinguish the two.
- `inspect` signature binding in the decorator: each method lists its bound arguments explicitly. `str()` and `repr()` of Python values are parameters of the formatting.
- artemis_base.py is not part of this model: it is the superseded base. logging.py, turntable.py, knuckles.py, alpha.py and the mission scripts are not part of it either: they are hardware scripts and fixed call sequences.
