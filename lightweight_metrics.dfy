/**
 * The metrics collector. Telemetry pushed by the game hooks is kept last-write-wins; a
 * collection opens `perf_<timestamp>.csv` in the output directory, writes the header and
 * schedules a sampling timer; every timer fire appends one row; stopping cancels the timer
 * and closes the file.
 */
module Metrics {
  import opened Wrappers
  import opened JavaInt
  import opened Text
  import opened Geometry
  import opened Config
  import opened MetricsRow

  /** The `samplingTimer` field: null, a timer with no task, or a timer firing at a fixed rate. */
  datatype TimerState = NoTimer | Unscheduled | Scheduled(delayMs: int, periodMs: int)

  /** How `startCollection` ended. */
  datatype StartOutcome =
    | Started
    | SetupFailed        // the output file could not be opened (IOException, caught)
    | HeaderFailed       // writing or flushing the header failed (IOException, caught)
    | ScheduleRejected   // the timer refused a non-positive period (IllegalArgumentException, thrown on)

  /**
   * The world as one sample sees it: the count the chunk-manager introspection finds
   * (`None` when it is not a client chunk manager, both reflective probes fail, or asking throws)
   * and the number of entities the world iterates over.
   */
  datatype WorldView = WorldView(chunkProbe: Option<Int32>, entityCount: Int32)

  /** The client as one sample sees it: the player's position, the world, the view distance option. */
  datatype ClientView = ClientView(player: Option<Vec3>, world: Option<WorldView>, viewDistance: Int32)

  /** The timer delay and period: `sampleInterval * 1000` in Java `int` arithmetic. */
  function IntervalMs(config: TestConfig): (ms: Int32)
    ensures -2147483 <= config.metrics.sampleInterval <= 2147483 ==> ms == config.metrics.sampleInterval * 1000
  {
    Wrap32(config.metrics.sampleInterval * 1000)
  }

  /**
   * Intervals whose milliseconds do not fit in an `int` wrap: 2147484 s wraps to a negative
   * period, which the timer rejects, and 4294968 s wraps to a positive but wrong 704 ms.
   */
  lemma IntervalOverflow()
    ensures IntervalMs(NewTestConfig().(metrics := MetricsConfig(2147484, "./perfdata", "csv"))) < 0
    ensures IntervalMs(NewTestConfig().(metrics := MetricsConfig(4294968, "./perfdata", "csv"))) == 704
  {
  }

  /** `outputDir.getPath() + File.separator + "perf_" + timestamp + ".csv"`. */
  function OutputFilename(dir: string, separator: char, timestamp: string): (path: string)
    ensures |path| == |dir| + |timestamp| + 10
    ensures path[..|dir|] == dir && path[|dir|] == separator
    ensures path[|dir| + 1..] == "perf_" + timestamp + ".csv"
  {
    dir + [separator] + "perf_" + timestamp + ".csv"
  }

  /** Different timestamps give different file names in the same directory. */
  lemma OutputFilenameInjective(dir: string, separator: char, t1: string, t2: string)
    requires OutputFilename(dir, separator, t1) == OutputFilename(dir, separator, t2)
    ensures t1 == t2
  {
    var p := OutputFilename(dir, separator, t1);
    assert |t1| == |t2|;
    var name1, name2 := "perf_" + t1 + ".csv", "perf_" + t2 + ".csv";
    assert name1 == name2;
    assert t1 == name1[5..|name1| - 4];
    assert t2 == name2[5..|name2| - 4];
  }

  /** The analytic estimate `(2r + 1) * (2r + 1)` for view distance `r`, in Java `int` arithmetic. */
  function ChunkEstimate(viewDistance: Int32): Int32 {
    Wrap32((2 * viewDistance + 1) * (2 * viewDistance + 1))
  }

  /** For every view distance that does not overflow, the estimate is the square of the loaded diameter. */
  lemma ChunkEstimateIsSquare(r: Int32)
    requires 0 <= r <= 23169
    ensures ChunkEstimate(r) == (2 * r + 1) * (2 * r + 1)
    ensures ChunkEstimate(r) >= 1
  {
    var d := 2 * r + 1;
    SquareBound(d, 46339);
    var sq := d * d;
    assert 1 <= d;
    assert 1 <= sq <= 2147302921;
    assert IsInt32(sq);
    assert Wrap32(sq) == sq;
  }

  lemma SquareBound(d: int, bound: int)
    requires 0 <= d <= bound
    ensures d * d <= bound * bound
  {
    assert d * d <= d * bound;
  }

  /**
   * `getLoadedChunkCount`: 0 without a world; the introspected count when a probe finds one;
   * otherwise the analytic estimate.
   */
  function LoadedChunkCount(client: ClientView): (n: Int32)
    ensures client.world.None? ==> n == 0
    ensures client.world.Some? && client.world.value.chunkProbe.Some? ==> n == client.world.value.chunkProbe.value
    ensures client.world.Some? && client.world.value.chunkProbe.None? ==> n == ChunkEstimate(client.viewDistance)
  {
    match client.world
    case None => 0
    case Some(w) => w.chunkProbe.GetOr(ChunkEstimate(client.viewDistance))
  }

  /** The visible-entity count: the world's entities, 0 without a world. */
  function VisibleEntities(client: ClientView): (n: Int32)
    ensures client.world.None? ==> n == 0
    ensures client.world.Some? ==> n == client.world.value.entityCount
  {
    match client.world
    case None => 0
    case Some(w) => w.entityCount
  }

  class LightweightMetrics {
    const config: TestConfig
    var currentFps: real
    var lastMspt: real
    var lastFrameTimeMs: real
    var samplingTimer: TimerState
    /** The file the writer is open on, `None` for a null writer. */
    var dataWriter: Option<string>
    var outputFilename: Option<string>
    /** The lines of every file this collector has created, by path. */
    var files: map<string, seq<Line>>
    /** How many times a writer has been closed. */
    ghost var closes: nat

    /** An open writer writes to a file that exists. */
    ghost predicate Valid()
      reads this
    {
      dataWriter.Some? ==> dataWriter.value in files
    }

    /** The telemetry triple: fps, mspt and frame time. */
    function Telemetry(): (real, real, real)
      reads this
    {
      (currentFps, lastMspt, lastFrameTimeMs)
    }

    constructor (config: TestConfig)
      ensures Valid() && this.config == config
      ensures Telemetry() == (0.0, 0.0, 0.0)
      ensures samplingTimer == NoTimer && dataWriter == None && outputFilename == None
      ensures files == map[] && closes == 0
    {
      this.config := config;
      currentFps, lastMspt, lastFrameTimeMs := 0.0, 0.0, 0.0;
      samplingTimer := NoTimer;
      dataWriter, outputFilename := None, None;
      files := map[];
      closes := 0;
    }

    /** Where a collection started at `timestamp` writes. */
    function PathFor(separator: char, timestamp: string): string {
      OutputFilename(config.metrics.outputDirectory, separator, timestamp)
    }

    /**
     * `startCollection`. `openOk` says whether the output file can be opened, `headerOk`
     * whether writing and flushing the header succeeds; `timestamp` is the formatted date.
     */
    method StartCollection(timestamp: string, separator: char, openOk: bool, headerOk: bool)
      returns (outcome: StartOutcome)
      requires Valid()
      modifies this
      ensures Valid()
      ensures Telemetry() == old(Telemetry())
      ensures outputFilename == Some(PathFor(separator, timestamp))
      ensures outcome == SetupFailed <==> !openOk
      ensures outcome == HeaderFailed <==> openOk && !headerOk
      ensures outcome == ScheduleRejected <==> openOk && headerOk && IntervalMs(config) <= 0
      ensures outcome == Started <==> openOk && headerOk && IntervalMs(config) > 0
      ensures outcome == SetupFailed ==>
        dataWriter == old(dataWriter) && files == old(files) && samplingTimer == old(samplingTimer) && closes == old(closes)
      ensures outcome == HeaderFailed ==>
        && dataWriter == None && files == old(files)[PathFor(separator, timestamp) := []]
        && samplingTimer == old(samplingTimer) && closes == old(closes) + 1
      ensures outcome in {ScheduleRejected, Started} ==>
        && dataWriter == Some(PathFor(separator, timestamp))
        && files == old(files)[PathFor(separator, timestamp) := [HeaderLine]]
        && closes == old(closes)
      ensures outcome == ScheduleRejected ==> samplingTimer == Unscheduled
      ensures outcome == Started ==> samplingTimer == Scheduled(IntervalMs(config), IntervalMs(config))
    {
      // setupOutputFile
      var path := PathFor(separator, timestamp);
      outputFilename := Some(path);
      if !openOk {
        return SetupFailed;
      }
      dataWriter := Some(path);
      files := files[path := []];

      // header
      if !headerOk {
        CloseWriter();
        return HeaderFailed;
      }
      assert files[path] + [HeaderLine] == [HeaderLine];
      files := files[path := files[path] + [HeaderLine]];

      // timer
      var intervalMs := IntervalMs(config);
      samplingTimer := Unscheduled;
      if intervalMs <= 0 {
        return ScheduleRejected;
      }
      samplingTimer := Scheduled(intervalMs, intervalMs);
      outcome := Started;
    }

    /** `stopCollection`: cancels and drops the timer, closes the writer. */
    method StopCollection()
      requires Valid()
      modifies this
      ensures Valid()
      ensures samplingTimer == NoTimer && dataWriter == None
      ensures files == old(files) && outputFilename == old(outputFilename) && Telemetry() == old(Telemetry())
      ensures closes == old(closes) + (if old(dataWriter).Some? then 1 else 0)
    {
      if samplingTimer != NoTimer {
        samplingTimer := NoTimer;
      }
      CloseWriter();
    }

    /** `closeWriter`: closes an open writer once and drops it; a failing close is only logged. */
    method CloseWriter()
      requires Valid()
      modifies this
      ensures Valid()
      ensures dataWriter == None
      ensures files == old(files) && outputFilename == old(outputFilename) && Telemetry() == old(Telemetry())
      ensures samplingTimer == old(samplingTimer)
      ensures closes == old(closes) + (if old(dataWriter).Some? then 1 else 0)
    {
      if dataWriter != None {
        closes := closes + 1;
        dataWriter := None;
      }
    }

    /** Whether a sample goes ahead: a client with a player, and an open writer. */
    predicate Samples(client: Option<ClientView>)
      reads this
    {
      client.Some? && client.value.player.Some? && dataWriter.Some?
    }

    /** The values a sample taken now records. */
    function SampleNow(client: ClientView, now: int): Sample
      requires client.player.Some?
      reads this
    {
      Sample(now, currentFps, lastMspt, lastFrameTimeMs, client.player.value,
             LoadedChunkCount(client), VisibleEntities(client))
    }

    /**
     * `collectAndWriteMetrics`, the timer's task: without a client, a player or a writer it
     * does nothing; otherwise it appends one row to the open file (`writeOk` false: the write
     * throws, is logged, and nothing is appended).
     */
    method CollectAndWriteMetrics(client: Option<ClientView>, now: int, writeOk: bool)
      requires Valid()
      modifies this
      ensures Valid()
      ensures dataWriter == old(dataWriter) && samplingTimer == old(samplingTimer)
      ensures outputFilename == old(outputFilename) && Telemetry() == old(Telemetry()) && closes == old(closes)
      ensures !old(Samples(client)) || !writeOk ==> files == old(files)
      ensures old(Samples(client)) && writeOk ==>
        var path := dataWriter.value;
        files == old(files)[path := old(files)[path] + [DataLine(old(SampleNow(client.value, now)))]]
    {
      if client.None? || client.value.player.None? || dataWriter.None? {
        return;
      }
      var c := client.value;
      var sample := Sample(now, currentFps, lastMspt, lastFrameTimeMs, c.player.value,
                           LoadedChunkCount(c), VisibleEntities(c));
      var dataLine := DataLine(sample);
      if writeOk {
        var path := dataWriter.value;
        files := files[path := files[path] + [dataLine]];
      }
    }

    /** `updateFps`: only the fps value changes. */
    method UpdateFps(fps: real)
      modifies this
      ensures Telemetry() == (fps, old(lastMspt), old(lastFrameTimeMs))
      ensures samplingTimer == old(samplingTimer) && dataWriter == old(dataWriter)
      ensures outputFilename == old(outputFilename) && files == old(files) && closes == old(closes)
    {
      currentFps := fps;
    }

    /** `updateFrameTime`: only the frame time changes. */
    method UpdateFrameTime(frameTimeMs: real)
      modifies this
      ensures Telemetry() == (old(currentFps), old(lastMspt), frameTimeMs)
      ensures samplingTimer == old(samplingTimer) && dataWriter == old(dataWriter)
      ensures outputFilename == old(outputFilename) && files == old(files) && closes == old(closes)
    {
      lastFrameTimeMs := frameTimeMs;
    }

    /** `updateMspt`: only the mspt value changes. */
    method UpdateMspt(mspt: real)
      modifies this
      ensures Telemetry() == (old(currentFps), mspt, old(lastFrameTimeMs))
      ensures samplingTimer == old(samplingTimer) && dataWriter == old(dataWriter)
      ensures outputFilename == old(outputFilename) && files == old(files) && closes == old(closes)
    {
      lastMspt := mspt;
    }
  }

  /** Stopping twice: the second stop finds nothing to cancel or close and changes nothing. */
  method StopTwice(m: LightweightMetrics)
    requires m.Valid()
    modifies m
    ensures m.samplingTimer == NoTimer && m.dataWriter == None && m.files == old(m.files)
    ensures m.closes == old(m.closes) + (if old(m.dataWriter).Some? then 1 else 0)
  {
    m.StopCollection();
    m.StopCollection();
  }

  /**
   * A whole session: a successful start, one sample, a stop, and a late timer fire.
   * The file ends as the header and exactly one row; the late fire writes nothing.
   */
  method Session(m: LightweightMetrics, timestamp: string, separator: char,
                 client: ClientView, t1: int, t2: int) returns (path: string)
    requires m.Valid() && IntervalMs(m.config) > 0 && client.player.Some?
    modifies m
    ensures path == OutputFilename(m.config.metrics.outputDirectory, separator, timestamp)
    ensures path in m.files && |m.files[path]| == 2 && m.files[path][0] == HeaderLine
    ensures m.files[path][1] == DataLine(Sample(t1, old(m.currentFps), old(m.lastMspt), old(m.lastFrameTimeMs),
                                           client.player.value, LoadedChunkCount(client), VisibleEntities(client)))
    ensures m.samplingTimer == NoTimer && m.dataWriter == None
  {
    var outcome := m.StartCollection(timestamp, separator, true, true);
    path := OutputFilename(m.config.metrics.outputDirectory, separator, timestamp);
    m.CollectAndWriteMetrics(Some(client), t1, true);
    m.StopCollection();
    m.CollectAndWriteMetrics(Some(client), t2, true);
  }
}
