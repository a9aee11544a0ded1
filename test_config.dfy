/**
 * The benchmark's configuration: three groups of settings read by the motion controller,
 * the metrics collector and the world manager. Every group starts from fixed defaults.
 */
module Config {
  import opened JavaInt

  /** The world to create or load. */
  datatype WorldConfig = WorldConfig(seed: string, worldName: string, gameMode: string)

  /** How long the benchmark runs and how the player moves. */
  datatype TestParameters = TestParameters(
    duration: Int32,          // seconds
    movementType: string,
    movementSpeed: real,
    exitAfterTest: bool)

  /** How often and where metrics are written. */
  datatype MetricsConfig = MetricsConfig(
    sampleInterval: Int32,    // seconds
    outputDirectory: string,
    outputFormat: string)

  datatype TestConfig = TestConfig(world: WorldConfig, test: TestParameters, metrics: MetricsConfig) {

    /** Convenience getter: the test duration in seconds. */
    function TestDuration(): Int32 {
      test.duration
    }

    /** Convenience getter: the metrics output directory. */
    function OutputDirectory(): string {
      metrics.outputDirectory
    }

    /** Convenience getter: whether the game exits after the test. */
    function IsExitAfterTest(): bool {
      test.exitAfterTest
    }
  }

  /** `new WorldConfig()`: the field initialisers. */
  function NewWorldConfig(): WorldConfig {
    WorldConfig("12345", "PerfTest", "creative")
  }

  /** `new TestParameters()`: the field initialisers. */
  function NewTestParameters(): TestParameters {
    TestParameters(300, "straight_line", 1.0, false)
  }

  /** `new MetricsConfig()`: the field initialisers. */
  function NewMetricsConfig(): MetricsConfig {
    MetricsConfig(1, "./perfdata", "csv")
  }

  /** `new TestConfig()`: every group at its defaults. */
  function NewTestConfig(): TestConfig {
    TestConfig(NewWorldConfig(), NewTestParameters(), NewMetricsConfig())
  }

  /** `TestConfig.createDefault()`: a freshly constructed configuration, every group at its defaults. */
  function CreateDefault(): (c: TestConfig)
    ensures c == NewTestConfig()
    ensures c.world == NewWorldConfig() && c.test == NewTestParameters() && c.metrics == NewMetricsConfig()
  {
    NewTestConfig()
  }

  /** World defaults: seed "12345", world "PerfTest", creative mode. */
  lemma WorldDefaults()
    ensures NewWorldConfig().seed == "12345"
    ensures NewWorldConfig().worldName == "PerfTest"
    ensures NewWorldConfig().gameMode == "creative"
  {
  }

  /** Test defaults: 300 seconds of straight-line movement at speed 1.0, without exiting afterwards. */
  lemma TestDefaults()
    ensures NewTestParameters().duration == 300
    ensures NewTestParameters().movementType == "straight_line"
    ensures NewTestParameters().movementSpeed == 1.0
    ensures !NewTestParameters().exitAfterTest
  {
  }

  /** Metrics defaults: one sample per second, CSV files under "./perfdata". */
  lemma MetricsDefaults()
    ensures NewMetricsConfig().sampleInterval == 1
    ensures NewMetricsConfig().outputDirectory == "./perfdata"
    ensures NewMetricsConfig().outputFormat == "csv"
  {
  }

  /** The convenience getters answer what the group getters answer. */
  lemma ConvenienceGettersDelegate(c: TestConfig)
    ensures c.TestDuration() == c.test.duration
    ensures c.OutputDirectory() == c.metrics.outputDirectory
    ensures c.IsExitAfterTest() == c.test.exitAfterTest
  {
  }

  /** The convenience getters on the default configuration. */
  lemma DefaultConvenienceGetters()
    ensures CreateDefault().TestDuration() == 300
    ensures CreateDefault().OutputDirectory() == "./perfdata"
    ensures !CreateDefault().IsExitAfterTest()
  {
  }
}
