# MineProfiler core, modelled in Dafny

MineProfiler is a Minecraft client mod that benchmarks the game: once a test world is
loaded it walks the player along a scripted pattern and, on a timer, writes frame rate,
tick time, frame time, player position, loaded chunks and visible entities to a CSV file.
This project models the parts of the mod that carry its logic and proves properties of them:

- **Motion controller** (`SimplePlayerController`, module `Controller`): a per-tick state
  machine over `movementStartTime` and `lastMovementDirection` that drives the player's velocity
  and yaw for the `straight_line`, `random` and `circular` movement types. The class methods
  are proved against a pure specification `Controller.Step` of one tick; `Controller.Run`
  strings ticks together for the lemmas about whole runs, and the timing and velocity rules
  are lemmas about those functions.
- **Metrics collector** (`LightweightMetrics`, modules `Metrics` and `MetricsRow`): the
  start/stop lifecycle (writer opened, header written, timer scheduled), last-write-wins
  telemetry, one row per sample, the output file name and the loaded-chunk fallback estimate.
  The disk is a map from path to the file's lines; the writer is the path it is open on; the
  timer is null, created-but-unscheduled, or scheduled with a delay and a period.
- **Configuration** (`TestConfig`, module `Config`): the three groups of settings, their
  defaults, `createDefault` and the convenience getters.
- **World manager** (`world/AutoWorldManager`, module `WorldManager`): the case-insensitive
  game-mode mapping with its CREATIVE default, the one-shot `tryCreateOrLoadWorld` latch and
  the `worldExists` fallback.
- **Button lookup** (`UIHelper`, module `UiHelper`): `findButtonWithText` as a search loop
  over abstract widgets, `getButtonText` and `hasButtonWithText`.

Supporting modules: `Wrappers` (an `Option` for Java's null), `JavaInt` (32-bit wrap-around
and Java's truncating `%`), `Geometry` (`Vec3d`, `Math.PI`, `Math.toDegrees`, and the
floating-point library as a parameter), `Text` (`toLowerCase`, `contains`, `%d`, `%.2f`,
splitting and joining a line).

Inputs the model takes as parameters rather than computing: the wall clock (the controller
reads it twice in one tick, at initialisation and in the pattern branch, and the model keeps
two readings), `Math.random()`, `Math.sin`/`Math.cos`/`Math.atan2`, the player's
`getRotationVector()` (a function of pitch and yaw), `isTestRunning()`, the formatted date of
the file name, `File.separator`, whether opening the file, writing the header and writing a
row succeed, the result of the two reflective chunk-count probes, the number of entities in
the world, the level storage, the current screen, and the widget list of a screen.

The code writes a nine-column CSV header,
`timestamp,fps,mspt,frameTime,playerX,playerY,playerZ,loadedChunks,visibleEntities`. It does
not normalise directions or wrap yaw into `[0, 360)`; circular mode only turns the player and
keeps walking forward. There is no free-flight mode, camera auto-rotation, running
min/mean/max statistics, summary report or test-duration stop.

`startCollection` catches the two I/O failures (opening the file, writing the header), logs
them and returns. It does not catch the `IllegalArgumentException` that
`Timer.scheduleAtFixedRate` throws for a non-positive period: that exception reaches the
caller after the header has been written, leaving the writer open and the timer without a
task (`ScheduleRejected`). The period is `sampleInterval * 1000` in Java `int` arithmetic, so
the timer rejects it exactly when that wrapped product is at most 0 (a `sampleInterval` of 0,
a negative one above -2147484, or 2147484 seconds, among others). Other overflowing values
give a positive but wrong period without any error: 4294968 seconds gives 704 ms.

When the clock reads a value below `movementStartTime`, the circular angle is negative,
because Java's `%` keeps the sign of the dividend.

## Model

| member | source | states |
|---|---|---|
| `Controller.SimplePlayerController.constructor` | src/main/java/com/mineprofiler/automation/SimplePlayerController.java:23-28 | a new controller heads along (0, 0, 1) with start time 0 |
| `Controller.SimplePlayerController.UpdatePlayerMovement` | src/main/java/com/mineprofiler/automation/SimplePlayerController.java:33-87 | without a player or a running test nothing changes; otherwise controller and player end exactly in the state `Step` gives |
| `Controller.SimplePlayerController.MovePlayerForward` | src/main/java/com/mineprofiler/automation/SimplePlayerController.java:92-104 | the player's new state is the old one with velocity along the look vector scaled by speed * 0.2 and the vertical component kept |
| `Controller.SimplePlayerController.StopMovement` | src/main/java/com/mineprofiler/automation/SimplePlayerController.java:109-116 | the player's new state is the old one with x and z velocity zero |
| `Controller.MovedForwardVelocity` | src/main/java/com/mineprofiler/automation/SimplePlayerController.java:96-102 | moving forward sets x and z velocity to look * (speed * 0.2), keeps y velocity, position and rotation |
| `Controller.StoppedVelocity` | src/main/java/com/mineprofiler/automation/SimplePlayerController.java:113-114 | stopping zeroes x and z velocity and keeps y velocity, position and rotation |
| `Controller.StartInitialisedOnce` | src/main/java/com/mineprofiler/automation/SimplePlayerController.java:38-40 | the start time is taken from the clock only while it is 0, and kept otherwise |
| `Controller.StraightLineStep` | src/main/java/com/mineprofiler/automation/SimplePlayerController.java:45-47 | straight-line mode only moves forward and keeps the heading |
| `Controller.RandomStep` | src/main/java/com/mineprofiler/automation/SimplePlayerController.java:48-71 | the heading changes only when strictly more than 5000 ms have passed; then the start time becomes now, the heading is (sin a * speed, 0, cos a * speed) and the player turns to it before moving; otherwise heading and yaw stay |
| `Controller.RandomHeadingLength` | src/main/java/com/mineprofiler/automation/SimplePlayerController.java:53-58 | a drawn heading is horizontal and has length speed |
| `Controller.RandomAngle` | src/main/java/com/mineprofiler/automation/SimplePlayerController.java:53 | the angle random mode draws from lies in [0, 2 PI) for every value `Math.random()` returns |
| `Controller.RandomHeadingStableInWindow` | src/main/java/com/mineprofiler/automation/SimplePlayerController.java:50-59 | over any run of ticks within 5000 ms of the phase start, heading and start time never change (no jitter inside a window) |
| `Controller.CircularStep` | src/main/java/com/mineprofiler/automation/SimplePlayerController.java:72-86 | circular mode keeps the start time, sets yaw to the phase angle in degrees and moves along the new look direction |
| `Controller.CircleAngleRange` | src/main/java/com/mineprofiler/automation/SimplePlayerController.java:74-78 | for a non-negative elapsed time the phase index lies in [0, 20000) and the angle in [0, 2 PI) |
| `Controller.CircleAngleNegative` | src/main/java/com/mineprofiler/automation/SimplePlayerController.java:74-78 | for a negative elapsed time Java's remainder gives an angle in (-2 PI, 0] |
| `Controller.CircleQuarterPeriod` | src/main/java/com/mineprofiler/automation/SimplePlayerController.java:78-81 | 5000 ms into the circle the yaw is 90 degrees |
| `Controller.CircularStartFixed` | src/main/java/com/mineprofiler/automation/SimplePlayerController.java:72-86 | over any run in circular mode the start time stays what the first tick initialised |
| `Controller.UnknownTypeStep` | src/main/java/com/mineprofiler/automation/SimplePlayerController.java:45-86 | an unrecognised movement type writes neither velocity nor yaw and keeps the heading |
| `Controller.RecognisedTypesMoveForward` | src/main/java/com/mineprofiler/automation/SimplePlayerController.java:45-86 | every recognised movement type ends its tick by moving forward along the (possibly new) look direction |
| `Metrics.LightweightMetrics.constructor` | src/main/java/com/mineprofiler/metrics/LightweightMetrics.java:29-43 | a new collector has zero telemetry, no timer, no writer, no file name |
| `Metrics.LightweightMetrics.StartCollection` | src/main/java/com/mineprofiler/metrics/LightweightMetrics.java:48-79 | the outcome is determined by open, header and interval, both directions; a failed open schedules nothing and changes no file; a failed header closes the writer and schedules nothing; otherwise the new file holds exactly the header and the timer's delay and period are both the interval |
| `Metrics.LightweightMetrics.StopCollection` | src/main/java/com/mineprofiler/metrics/LightweightMetrics.java:84-92 | afterwards timer and writer are null, no file changes, and a writer is closed only if one was open |
| `Metrics.LightweightMetrics.CloseWriter` | src/main/java/com/mineprofiler/metrics/LightweightMetrics.java:113-122 | an open writer is closed once and dropped; a null writer is left alone |
| `Metrics.LightweightMetrics.CollectAndWriteMetrics` | src/main/java/com/mineprofiler/metrics/LightweightMetrics.java:127-163 | without a client, player or writer (or when the write throws) no file changes; otherwise exactly one row, built from the latest telemetry, is appended to the open file |
| `Metrics.LightweightMetrics.UpdateFps` | src/main/java/com/mineprofiler/metrics/LightweightMetrics.java:217-219 | only the fps slot changes, to the pushed value |
| `Metrics.LightweightMetrics.UpdateFrameTime` | src/main/java/com/mineprofiler/metrics/LightweightMetrics.java:224-226 | only the frame-time slot changes, to the pushed value |
| `Metrics.LightweightMetrics.UpdateMspt` | src/main/java/com/mineprofiler/metrics/LightweightMetrics.java:231-233 | only the mspt slot changes, to the pushed value |
| `Metrics.StopTwice` | src/main/java/com/mineprofiler/metrics/LightweightMetrics.java:84-92 | stopping twice closes at most the one writer that was open and leaves timer and writer null |
| `Metrics.Session` | src/main/java/com/mineprofiler/metrics/LightweightMetrics.java:48-163 | start, one sample, stop and a late timer fire leave the file with the header and exactly one row |
| `Metrics.IntervalMs` | src/main/java/com/mineprofiler/metrics/LightweightMetrics.java:68 | the timer interval is sampleInterval * 1000 whenever that fits in an int |
| `Metrics.IntervalOverflow` | src/main/java/com/mineprofiler/metrics/LightweightMetrics.java:68-75 | an interval of 2147484 seconds wraps to a negative period, which the timer rejects; 4294968 seconds wraps to a positive but wrong 704 ms |
| `Metrics.OutputFilename` | src/main/java/com/mineprofiler/metrics/LightweightMetrics.java:106 | the path is the directory, the separator, then `perf_<timestamp>.csv` |
| `Metrics.OutputFilenameInjective` | src/main/java/com/mineprofiler/metrics/LightweightMetrics.java:106 | different timestamps give different files in the same directory |
| `Metrics.LoadedChunkCount` | src/main/java/com/mineprofiler/metrics/LightweightMetrics.java:168-212 | 0 without a world; the probed count when introspection finds one; otherwise the estimate |
| `Metrics.ChunkEstimateIsSquare` | src/main/java/com/mineprofiler/metrics/LightweightMetrics.java:200-202 | the fallback estimate is (2r+1)*(2r+1) for every view distance that does not overflow |
| `Metrics.VisibleEntities` | src/main/java/com/mineprofiler/metrics/LightweightMetrics.java:144-152 | 0 without a world, otherwise the world's entity count |
| `MetricsRow.HeaderColumns` | src/main/java/com/mineprofiler/metrics/LightweightMetrics.java:59 | the header splits into the nine column names in order |
| `MetricsRow.Row` | src/main/java/com/mineprofiler/metrics/LightweightMetrics.java:155-156 | a data line splits into nine fields in header order; the integer fields parse back to the sampled values |
| `MetricsRow.LineFieldCount` | src/main/java/com/mineprofiler/metrics/LightweightMetrics.java:59 | every line of the file, header or row, has one field per column |
| `Text.Fixed2` | src/main/java/com/mineprofiler/metrics/LightweightMetrics.java:155 | `%.2f` output ends in '.' and two digits, holds no comma, and starts with '-' exactly for negative values |
| `Text.Cents` | src/main/java/com/mineprofiler/metrics/LightweightMetrics.java:155 | the printed hundredths are within 0.005 of the value's magnitude |
| `Text.IntToStringRoundTrip` | src/main/java/com/mineprofiler/metrics/LightweightMetrics.java:155 | `%d` output parses back to the value |
| `Text.SplitJoin` | src/main/java/com/mineprofiler/metrics/LightweightMetrics.java:155-156 | splitting comma-joined fields gives them back when no field holds a comma |
| `Text.ToLower` | src/main/java/com/mineprofiler/util/UIHelper.java:180 | lower-casing keeps the length and lower-cases each letter in place |
| `Text.ContainsIff` | src/main/java/com/mineprofiler/util/UIHelper.java:194 | `contains` holds exactly when the substring occurs at some index |
| `JavaInt.Wrap32` | src/main/java/com/mineprofiler/metrics/LightweightMetrics.java:68 | the result is an int congruent to the exact value, and equal to it when it fits |
| `JavaInt.Rem` | src/main/java/com/mineprofiler/automation/SimplePlayerController.java:78 | Java's `%` by a positive divisor satisfies `(a / b) * b + a % b == a` with truncating `/`, so `a - r` is a multiple of b; r lies in [0, b) for a non-negative dividend and in (-b, 0] for a negative one, which fixes its value |
| `Config.CreateDefault` | src/main/java/com/mineprofiler/config/TestConfig.java:27-32 | `createDefault()` is a freshly constructed config with every group at its defaults |
| `Config.WorldDefaults` | src/main/java/com/mineprofiler/config/TestConfig.java:65-67 | world defaults are seed "12345", name "PerfTest", mode "creative" |
| `Config.TestDefaults` | src/main/java/com/mineprofiler/config/TestConfig.java:84-87 | test defaults are 300 s, "straight_line", speed 1.0, no exit |
| `Config.MetricsDefaults` | src/main/java/com/mineprofiler/config/TestConfig.java:108-110 | metrics defaults are interval 1, "./perfdata", "csv" |
| `Config.ConvenienceGettersDelegate` | src/main/java/com/mineprofiler/config/TestConfig.java:139-149 | the convenience getters return the group getters' values |
| `Config.DefaultConvenienceGetters` | src/main/java/com/mineprofiler/config/TestConfig.java:139-149 | on the default config they give 300, "./perfdata" and false |
| `WorldManager.ConfiguredGameMode` | src/main/java/com/mineprofiler/world/AutoWorldManager.java:80-94 | each of the four lower-cased names maps to its mode, both directions; every other name maps to CREATIVE |
| `WorldManager.GameModeIgnoresCase` | src/main/java/com/mineprofiler/world/AutoWorldManager.java:81 | names equal up to letter case give the same mode |
| `WorldManager.DefaultGameModeIsCreative` | src/main/java/com/mineprofiler/world/AutoWorldManager.java:81-84 | the default configuration plays in creative mode |
| `WorldManager.WorldExists` | src/main/java/com/mineprofiler/world/AutoWorldManager.java:30-37 | true exactly when the storage answers and holds the name; false when the lookup throws |
| `WorldManager.AutoWorldManager.constructor` | src/main/java/com/mineprofiler/world/AutoWorldManager.java:20-25 | a new manager has not attempted creation |
| `WorldManager.AutoWorldManager.TryCreateOrLoadWorld` | src/main/java/com/mineprofiler/world/AutoWorldManager.java:44-74 | afterwards the latch is set; a repeated call reports nothing; a first call reports the step for the screen, consulting the storage only on the world-selection screen; nothing else changes |
| `WorldManager.AttemptTwice` | src/main/java/com/mineprofiler/world/AutoWorldManager.java:44-50 | a second attempt reports nothing whatever the screen |
| `UiHelper.ButtonText` | src/main/java/com/mineprofiler/util/UIHelper.java:134-161 | the label when there is one, "" for a null label, the reflective text or "" when `getMessage` throws; never null |
| `UiHelper.FindButtonWithText` | src/main/java/com/mineprofiler/util/UIHelper.java:166-204 | the result is a button that matches and no earlier widget matches; null exactly when no widget matches |
| `UiHelper.HasButtonWithText` | src/main/java/com/mineprofiler/util/UIHelper.java:209-211 | true exactly when some widget is a matching button |
| `UiHelper.EmptyOptionMatchesEveryButton` | src/main/java/com/mineprofiler/util/UIHelper.java:191-197 | an empty option matches every button, because every string contains "" |

## Left out

- Screen mixins (`SelectWorldScreenMixin`, `CreateWorldScreenMixin`, `TitleScreenMixin`): menu navigation by reflection over private members; their button matching is the rule `UiHelper.FindButtonWithText` models.
- `UIHelper.getAllClickableWidgets` and `tryGetWidgetsFrom`: runtime reflection over host classes; the widget list is a parameter.
- The debug dump loop at the head of `findButtonWithText` and every other log statement: logging only. `TryCreateOrLoadWorld` returns the step it would log so that its branches are observable.
- Host hook mixins (`MinecraftClientMixin`, `MinecraftServerMixin`, `ClientPlayerEntityMixin`, `GameRendererMixin`): bytecode-injected timing hooks; in the model telemetry simply arrives through the `Update*` methods.
- `MineProfilerMod`: thin orchestration around a singleton; it calls a no-argument controller and collector constructor and `isAutoMovementActive`/`activateAutoMovement`, which the modelled classes do not have.
- `automation/AutoWorldManager`: log statements only.
- `TestConfig.load`, `save` and `getConfigFile`: JSON file I/O.
- The `java.util.Timer` thread, `volatile` publication and every interleaving of a timer fire with `stopCollection` or a telemetry push: each operation is modelled as one atomic step. When `startCollection` runs a second time, the earlier timer keeps firing in the code; the model only records that the field is overwritten.
- `mkdirs`, `SimpleDateFormat` and `new FileWriter`: the date string and the success of opening are parameters; `File.getPath()` normalisation of the directory string is not modelled.
- `Metrics.LightweightMetrics.StartCollection`: when the header write fails, the file is modelled as empty, although a buffered write that reached the disk before the failing flush would leave (part of) the header in it.
- `Metrics.LightweightMetrics.CollectAndWriteMetrics`: a write that throws is modelled as appending nothing, not a partial line; an exception from reading the view distance (outside the inner `try` of `getLoadedChunkCount`) is not modelled.
- Reflection methods 1 and 2 in `getLoadedChunkCount` and the entity iteration: their results are inputs (`chunkProbe`, `entityCount`).
- `Text.Fixed2`: models `%.2f` for the '.' decimal separator of the usual default locale; a locale with ',' as separator would add commas to every row. NaN and infinities do not exist among reals.
- `Text.ToLower`: lower-cases ASCII letters only; Java's locale-sensitive `toLowerCase` also maps other letters (and, under a Turkish locale, maps 'I' differently).
- `Controller.SimplePlayerController.UpdatePlayerMovement`: the yaw is a real, not the `float` the code casts to, and all vector arithmetic is exact real arithmetic rather than `double`; Java `long` overflow of clock differences is not modelled.
- `Math.sin`, `Math.cos`, `Math.atan2`, `Math.random` and the player's rotation vector: parameters, not computed.
- `UiHelper.ButtonText`: exceptions thrown by `toString()` during matching and null option strings are not modelled.
