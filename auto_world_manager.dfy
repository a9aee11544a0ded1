/**
 * The world manager: maps the configured game-mode name to a game mode, and makes one
 * attempt to steer the menus towards the test world. The attempt itself only reports
 * (logs) which step the current screen calls for; the mixins do the clicking.
 */
module WorldManager {
  import opened Config
  import opened Text
  import opened Wrappers

  datatype GameMode = Survival | Creative | Adventure | Spectator

  /** The screen shown when the attempt is made (`OtherScreen` also stands for none). */
  datatype Screen = TitleScreen | SelectWorldScreen | CreateWorldScreen | OtherScreen

  /** The client's level storage; `Unreachable` when asking it throws. */
  datatype LevelStorage = Levels(names: set<string>) | Unreachable

  /** The step the attempt reports for the screen it finds. */
  datatype Navigation = OpenWorldSelection | LoadExistingWorld | CreateNewWorld | FillInWorldParameters

  /** The `switch` over an already lower-cased mode name, with CREATIVE as its default. */
  function ModeOfLowered(name: string): GameMode {
    match name
    case "creative" => Creative
    case "survival" => Survival
    case "adventure" => Adventure
    case "spectator" => Spectator
    case _ => Creative
  }

  /** `getConfiguredGameMode`: the configured name, lower-cased, then switched on. */
  function ConfiguredGameMode(config: TestConfig): (m: GameMode)
    ensures m == Survival <==> ToLower(config.world.gameMode) == "survival"
    ensures m == Adventure <==> ToLower(config.world.gameMode) == "adventure"
    ensures m == Spectator <==> ToLower(config.world.gameMode) == "spectator"
    ensures m == Creative <==> ToLower(config.world.gameMode) !in {"survival", "adventure", "spectator"}
  {
    ModeOfLowered(ToLower(config.world.gameMode))
  }

  /** Two configurations whose mode names differ only in letter case give the same mode. */
  lemma GameModeIgnoresCase(c1: TestConfig, c2: TestConfig)
    requires ToLower(c1.world.gameMode) == ToLower(c2.world.gameMode)
    ensures ConfiguredGameMode(c1) == ConfiguredGameMode(c2)
  {
  }

  /** The default configuration plays in creative mode. */
  lemma DefaultGameModeIsCreative()
    ensures ConfiguredGameMode(CreateDefault()) == Creative
  {
    assert ToLower("creative") == "creative";
  }

  /** `worldExists`: false when the storage lookup throws. */
  function WorldExists(storage: LevelStorage, worldName: string): (b: bool)
    ensures b <==> storage.Levels? && worldName in storage.names
    ensures storage.Unreachable? ==> !b
  {
    match storage
    case Levels(names) => worldName in names
    case Unreachable => false
  }

  /** The step `tryCreateOrLoadWorld` reports for a screen, once it goes ahead. */
  function PlannedStep(screen: Screen, worldFound: bool): Option<Navigation> {
    match screen
    case TitleScreen => Some(OpenWorldSelection)
    case SelectWorldScreen => if worldFound then Some(LoadExistingWorld) else Some(CreateNewWorld)
    case CreateWorldScreen => Some(FillInWorldParameters)
    case OtherScreen => None
  }

  class AutoWorldManager {
    const config: TestConfig
    var worldCreationAttempted: bool

    constructor (config: TestConfig)
      ensures this.config == config && !worldCreationAttempted
    {
      this.config := config;
      worldCreationAttempted := false;
    }

    /**
     * `tryCreateOrLoadWorld`: a one-shot latch. The first call sets the latch and reports
     * the step for the current screen; every later call returns at once. No other state changes.
     */
    method TryCreateOrLoadWorld(screen: Screen, storage: LevelStorage) returns (step: Option<Navigation>)
      modifies this
      ensures worldCreationAttempted
      ensures old(worldCreationAttempted) ==> step == None
      ensures !old(worldCreationAttempted) ==>
        step == PlannedStep(screen, WorldExists(storage, config.world.worldName))
    {
      if worldCreationAttempted {
        return None;
      }
      var worldName := config.world.worldName;
      worldCreationAttempted := true;
      match screen
      case TitleScreen =>
        step := Some(OpenWorldSelection);
      case SelectWorldScreen =>
        if WorldExists(storage, worldName) {
          step := Some(LoadExistingWorld);
        } else {
          step := Some(CreateNewWorld);
        }
      case CreateWorldScreen =>
        step := Some(FillInWorldParameters);
      case OtherScreen =>
        step := None;
    }
  }

  /** A second attempt on the same manager reports nothing, whatever the screen. */
  method AttemptTwice(m: AutoWorldManager, first: Screen, second: Screen, storage: LevelStorage)
    returns (step1: Option<Navigation>, step2: Option<Navigation>)
    modifies m
    ensures m.worldCreationAttempted && step2 == None
    ensures !old(m.worldCreationAttempted) ==>
      step1 == PlannedStep(first, WorldExists(storage, m.config.world.worldName))
  {
    step1 := m.TryCreateOrLoadWorld(first, storage);
    step2 := m.TryCreateOrLoadWorld(second, storage);
  }
}
