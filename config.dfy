/**
 * The per-character configuration, reduced to the settings the modelled code
 * reads or writes, and the registry of all character configurations by
 * supervisor name. Loading and writing the YAML files is not modelled: the
 * registry map is the in-memory state those files are loaded into.
 */
module Config {
  import opened Common

  /**
   * The game difficulty. The configuration stores it as text; the three
   * difficulties the game knows are told apart, any other text is kept as is.
   */
  datatype Difficulty = Normal | Nightmare | Hell | Unlisted(name: string)

  function DifficultyName(d: Difficulty): string {
    match d
    case Normal => "normal"
    case Nightmare => "nightmare"
    case Hell => "hell"
    case Unlisted(name) => name
  }

  /** The difficulty a configuration text stands for. */
  function ParseDifficulty(s: string): (d: Difficulty)
    ensures DifficultyName(d) == s
    ensures d.Unlisted? <==> s != "normal" && s != "nightmare" && s != "hell"
  {
    if s == "normal" then Normal
    else if s == "nightmare" then Nightmare
    else if s == "hell" then Hell
    else Unlisted(s)
  }

  const TokenAuth := "TokenAuth"
  const UsernamePassword := "UsernamePassword"

  datatype CharacterCfg = CharacterCfg(
    characterName: string,
    username: string,
    password: string,
    authMethod: string,
    authToken: string,
    realm: string,
    commandLineArgs: string,
    killD2OnStop: bool,
    /** Overseer.Tmp: the configuration is a temporary copy. */
    overseerTmp: bool,
    /** Game.Difficulty */
    difficulty: Difficulty,
    /** Companion.GameNameTemplate and Companion.GamePassword */
    gameNameTemplate: string,
    gamePassword: string,
    /** Game.Runs, in the configured order */
    runs: seq<string>,
    /** Inventory.InventoryLock: one row of cells per inventory row */
    inventoryLock: seq<seq<int>>)

  /**
   * What config.CreateFromSource came back with: the error it reported, or
   * the configuration it loaded for the new entry.
   */
  datatype Created = CreateFailed(msg: string) | Copied(cfg: CharacterCfg)

  /** The name CreateFromSource stores the new entry under. */
  function CopyName(source: string, target: string): (r: string)
    ensures target != "" ==> r == target
    ensures target == "" ==> r == source + "_tmp"
  {
    if target == "" then source + "_tmp" else target
  }

  class Registry {
    var characters: map<string, CharacterCfg>

    constructor (characters: map<string, CharacterCfg>)
      ensures this.characters == characters
    {
      this.characters := characters;
    }

    /** config.CreateFromSource, with its outcome supplied by `created`. */
    method CreateFromSource(source: string, target: string, created: Created) returns (err: Option<string>)
      modifies this`characters
      ensures created.CreateFailed? ==> err == Some(created.msg) && characters == old(characters)
      ensures created.Copied? ==> err == None && characters == old(characters)[CopyName(source, target) := created.cfg]
    {
      match created
      case CreateFailed(msg) =>
        return Some(msg);
      case Copied(cfg) =>
        characters := characters[CopyName(source, target) := cfg];
        return None;
    }

    /** config.SaveSupervisorConfig, with its write error supplied by `failure`. */
    method SaveSupervisorConfig(name: string, cfg: CharacterCfg, failure: Option<string>) returns (err: Option<string>)
      modifies this`characters
      ensures err == failure
      ensures failure.Some? ==> characters == old(characters)
      ensures failure.None? ==> characters == old(characters)[name := cfg]
    {
      if failure.Some? {
        return failure;
      }
      characters := characters[name := cfg];
      return None;
    }
  }
}
