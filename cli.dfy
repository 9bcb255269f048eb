/** `main` of the current version: the branch logic from the parsed
    arguments to the exit status. Argument parsing, loading the YAML source
    configuration and the text of the usage message are not modelled: the
    parsed arguments and the loaded configuration are inputs. */
module Cli {
  import opened Systems
  import opened Wrappers
  import opened Strings
  import opened Effects
  import opened SourceConfigs
  import opened Frontends
  import opened Levels
  import opened Factory
  import opened Copier
  import opened Sizes

  /** The parsed command line; the optional `destination_dir` and `level`
      default to "". */
  datatype Args = Args(destination: string, destinationDir: string, level: string)

  /** The configuration `main` uses: the loaded one, read over SSH unless
      the destination is itself remote ("host:path"). */
  function ConfigFor(loaded: SourceConfig, destinationDir: string): (c: SourceConfig)
    ensures c.remoteSource <==> ':' !in destinationDir
    ensures c.(remoteSource := loaded.remoteSource) == loaded
  {
    loaded.(remoteSource := ':' !in destinationDir)
  }

  /** The systems a level argument selects: none for an absent level, the
      level's list for a valid one, and a rejection for any other. */
  function LevelSystems(level: string): (r: Option<seq<System>>)
    ensures level == "" ==> r == Some([])
    ensures level != "" ==> (r.Some? <==> IsValidLevel(level))
    ensures level != "" && r.Some? ==> r == SystemsForLevel(level)
  {
    if level == "" then Some([])
    else if !IsValidLevel(level) then None
    else SystemsForLevel(level)
  }

  /** Everything a copy run prints: the BIOS rsyncs, then one line per
      system for the ROMs, copying directory contents. */
  function CopyOutput(f: Frontend, cfg: SourceConfig, systems: seq<System>): seq<Line> {
    BiosOutput(View(f), cfg, systems) + RomOutput(View(f), cfg, systems, false)
  }

  /** The level argument of the sizes report: `destination_dir` when given,
      else `level`. */
  function SizesLevel(args: Args): string {
    if args.destinationDir != "" then args.destinationDir else args.level
  }

  method Run(args: Args, loaded: SourceConfig) returns (exit: Exit)
    ensures exit.code == 0 || exit.code == 1
    ensures exit.executed == Commands(exit.output)
    // the sizes report
    ensures Lower(args.destination) in SizesAliases ==>
      if LevelSystems(SizesLevel(args)).None? then
        exit == Exit(1, [UnsupportedLevel(SizesLevel(args))], [], None)
      else
        exit == Exit(0, [], [], SizesCommand(ConfigFor(loaded, args.destinationDir), LevelSystems(SizesLevel(args)).value))
    // a copy: its arguments are checked in this order before anything is copied
    ensures Lower(args.destination) !in SizesAliases ==> exit.ssh == None
    ensures Lower(args.destination) !in SizesAliases && args.destinationDir == "" ==>
      exit == Exit(1, [DestinationDirRequired, Usage], [], None)
    ensures Lower(args.destination) !in SizesAliases && args.destinationDir != "" && LevelSystems(args.level).None? ==>
      exit == Exit(1, [UnsupportedLevel(args.level)], [], None)
    ensures
      && Lower(args.destination) !in SizesAliases && args.destinationDir != "" && LevelSystems(args.level).Some?
      && Create(args.destination, args.destinationDir).None?
      ==>
      exit == Exit(1, [UnsupportedDestination(args.destination), Available(FrontendKeys)], [], None)
    ensures
      && Lower(args.destination) !in SizesAliases && args.destinationDir != "" && LevelSystems(args.level).Some?
      && Create(args.destination, args.destinationDir).Some?
      ==>
      exit.code == 0
      && exit.output == CopyOutput(Create(args.destination, args.destinationDir).value,
        ConfigFor(loaded, args.destinationDir), LevelSystems(args.level).value)
  {
    var destinationType := Lower(args.destination);
    var remoteDestination := ':' in args.destinationDir;
    var sourceConfig := loaded.(remoteSource := !remoteDestination);

    if destinationType in SizesAliases {
      var level := if args.destinationDir != "" then args.destinationDir else args.level;
      var selected := LevelSystems(level);
      if selected.None? {
        return Exit(1, [UnsupportedLevel(level)], [], None);
      }
      var systems := selected.value;
      var ssh := Display(systems, sourceConfig);
      return Exit(0, [], [], ssh);
    }

    if args.destinationDir == "" {
      return Exit(1, [DestinationDirRequired, Usage], [], None);
    }

    var level := args.level;
    var selected := LevelSystems(level);
    if selected.None? {
      return Exit(1, [UnsupportedLevel(level)], [], None);
    }
    var systems := selected.value;

    LowerIdempotent(args.destination);
    var frontend := Create(destinationType, args.destinationDir);
    if frontend.None? {
      return Exit(1, [UnsupportedDestination(args.destination), Available(FrontendKeys)], [], None);
    }

    var copier := new FileCopier(View(frontend.value), sourceConfig, false);
    assert copier.output == [];
    copier.CopyBiosFiles(systems);
    assert copier.output == BiosOutput(View(frontend.value), sourceConfig, systems);
    copier.CopyRomFiles(systems, false);
    return Exit(0, copier.output, copier.executed, None);
  }
}
