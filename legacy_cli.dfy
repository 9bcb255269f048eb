/** `CLI#run` of the earlier Ruby version: the branch logic from the
    command-line words to the exit status. The text of the usage message is
    not modelled. */
module LegacyCli {
  import opened Systems
  import opened Wrappers
  import opened Strings
  import opened Effects
  import opened LegacySource
  import opened LegacyFrontends
  import opened LegacyLevels
  import opened LegacyFactory
  import opened LegacyCopier
  import opened LegacySizes
  import opened Sorting

  /** The level word: the second argument, or "" when there is none (the
      missing and the empty level are treated alike). A third argument is
      read into a variable that is never used. */
  function LevelArg(args: seq<string>): string {
    if |args| > 1 then args[1] else ""
  }

  /** `parse_systems`: no systems for an absent level, the level's list for
      a valid one, and a rejection for any other. */
  function LevelSystems(level: string): (r: Option<seq<System>>)
    ensures level == "" ==> r == Some([])
    ensures level != "" ==> (r.Some? <==> IsValidLevel(level))
    ensures level != "" && r.Some? ==> r == SystemsForLevel(level)
  {
    if level == "" then Some([])
    else if !IsValidLevel(level) then None
    else SystemsForLevel(level)
  }

  /** Whatever the level word, the earlier version selects no systems. */
  lemma LevelSystemsEmpty(level: string)
    ensures LevelSystems(level).Some? ==> LevelSystems(level).value == []
  {
    if level != "" && IsValidLevel(level) {
      EveryLevelIsEmpty(level);
    }
  }

  /** Everything a copy run prints: the BIOS rsyncs, then one line per
      system for the ROMs, copying directory contents. */
  function CopyOutput(f: Frontend, systems: seq<System>): seq<Line> {
    BiosOutput(View(f), Source(), systems) + RomOutput(View(f), Source(), systems, false)
  }

  /** The help words, anywhere on the command line, or no words at all. */
  predicate WantsUsage(args: seq<string>) {
    |args| == 0 || "--help" in args || "-h" in args
  }

  method Run(args: seq<string>) returns (exit: Exit)
    ensures exit.code == 0 || exit.code == 1
    ensures exit.executed == Commands(exit.output)
    // as configured, with every level empty, a run copies and measures nothing
    ensures exit.executed == [] && exit.ssh == None
    ensures WantsUsage(args) ==> exit == Exit(0, [Usage], [], None)
    // the level is checked first, for the sizes report as for a copy
    ensures !WantsUsage(args) && LevelSystems(LevelArg(args)).None? ==>
      exit == Exit(1, [UnsupportedLevel(LevelArg(args))], [], None)
    ensures !WantsUsage(args) && LevelSystems(LevelArg(args)).Some? && Lower(args[0]) in SizesAliases ==>
      exit == Exit(0, [], [], SizesCommand(Source(), LevelSystems(LevelArg(args)).value))
    ensures
      && !WantsUsage(args) && LevelSystems(LevelArg(args)).Some? && Lower(args[0]) !in SizesAliases
      && Create(args[0]).None?
      ==>
      exit == Exit(1, [UnsupportedDestination(args[0]), Available(FrontendKeys)], [], None)
    ensures
      && !WantsUsage(args) && LevelSystems(LevelArg(args)).Some? && Lower(args[0]) !in SizesAliases
      && Create(args[0]).Some?
      ==>
      exit.code == 0 && exit.output == CopyOutput(Create(args[0]).value, LevelSystems(LevelArg(args)).value)
  {
    if |args| == 0 || "--help" in args || "-h" in args {
      return Exit(0, [Usage], [], None);
    }

    var destination := Lower(args[0]);
    var level := if |args| > 1 then args[1] else "";

    var systems := LevelSystems(level);
    if systems.None? {
      return Exit(1, [UnsupportedLevel(level)], [], None);
    }
    LevelSystemsEmpty(level);

    if destination in SizesAliases {
      var ssh := Display(systems.value, Source());
      assert SortBy(Value, systems.value) == [];
      return Exit(0, [], [], ssh);
    }

    LowerIdempotent(args[0]);
    var frontend := Create(destination);
    if frontend.None? {
      return Exit(1, [UnsupportedDestination(args[0]), Available(FrontendKeys)], [], None);
    }

    var copier := new FileCopier(View(frontend.value), Source(), false);
    assert copier.output == [];
    copier.CopyBiosFiles(systems.value);
    assert copier.output == BiosOutput(View(frontend.value), Source(), systems.value);
    copier.CopyRomFiles(systems.value, false);
    assert copier.output == [];
    return Exit(0, copier.output, copier.executed, None);
  }
}
