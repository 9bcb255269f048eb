/** `FileCopier` of the current version: walks a list of systems in order and
    issues one rsync per system that has both a source subdirectory and a
    destination on the frontend. Printing and running rsync are recorded in
    the copier's `output` and `executed` logs. */
module Copier {
  import opened Systems
  import opened Wrappers
  import opened Strings
  import opened Paths
  import opened Effects
  import opened SourceConfigs
  import opened Frontends

  /** What the copier sees of a frontend: the `name` and the two lookups of
      the `Frontend` interface it calls. */
  datatype FrontendView = FrontendView(
    name: string,
    biosDirectory: System -> Option<string>,
    romsDirectory: System -> Option<string>)

  /** The view of one of the tool's frontends. */
  function View(f: Frontend): (v: FrontendView)
    ensures v.name == Name(f)
    ensures forall s :: v.biosDirectory(s) == BiosDirectory(f, s)
    ensures forall s :: v.romsDirectory(s) == RomsDirectory(f, s)
  {
    FrontendView(Name(f), s => BiosDirectory(f, s), s => RomsDirectory(f, s))
  }

  /** What `copy_bios_files` prints for one system: nothing when the source
      has no BIOS subdirectory for it or the frontend no BIOS directory,
      otherwise one rsync from the source subdirectory's contents into the
      BIOS directory. */
  function BiosStep(v: FrontendView, cfg: SourceConfig, s: System): seq<Line> {
    var sourceSubdir := cfg.BiosSubdir(s);
    if !Present(sourceSubdir) then []
    else
      var destinationDir := v.biosDirectory(s);
      if !Present(destinationDir) then []
      else [RsyncLine(Command(true, Join(cfg.BiosDir(), sourceSubdir.value) + "/", destinationDir.value + "/"))]
  }

  /** Everything `copy_bios_files` prints for `systems`, in order. */
  function BiosOutput(v: FrontendView, cfg: SourceConfig, systems: seq<System>): seq<Line>
    decreases |systems|
  {
    if systems == [] then []
    else BiosOutput(v, cfg, systems[..|systems| - 1]) + BiosStep(v, cfg, systems[|systems| - 1])
  }

  /** The rsync source for a ROM subdirectory: its contents ("/") and, unless
      the directory itself is to be copied, a second slash. */
  function RomSource(cfg: SourceConfig, subdir: string, copySourceDirectory: bool): string {
    var sourcePath := Join(cfg.RomsDir(), subdir) + "/";
    if copySourceDirectory then sourcePath else sourcePath + "/"
  }

  /** What `copy_rom_files` prints for one system: a notice when the source
      has no ROM subdirectory or the frontend no ROM directory for it,
      otherwise one rsync into the frontend's ROM directory. */
  function RomStep(v: FrontendView, cfg: SourceConfig, s: System, copySourceDirectory: bool): seq<Line> {
    var sourceSubdir := cfg.RomsSubdir(s);
    if !Present(sourceSubdir) then [NoSourceRoms(s)]
    else
      var destinationDir := v.romsDirectory(s);
      if !Present(destinationDir) then [NoDestination(s, v.name)]
      else [RsyncLine(Command(true, RomSource(cfg, sourceSubdir.value, copySourceDirectory), destinationDir.value))]
  }

  /** Everything `copy_rom_files` prints for `systems`, in order. */
  function RomOutput(v: FrontendView, cfg: SourceConfig, systems: seq<System>, copySourceDirectory: bool): seq<Line>
    decreases |systems|
  {
    if systems == [] then []
    else
      RomOutput(v, cfg, systems[..|systems| - 1], copySourceDirectory)
        + RomStep(v, cfg, systems[|systems| - 1], copySourceDirectory)
  }

  class FileCopier {
    const frontend: FrontendView
    const sourceConfig: SourceConfig
    const dryRun: bool
    /** The lines printed so far. */
    var output: seq<Line>
    /** The rsync commands run so far. */
    var executed: seq<Command>

    /** The copier has run exactly the commands it printed, or none in a dry
        run. */
    predicate Valid()
      reads this
    {
      executed == Executed(dryRun, output)
    }

    constructor(frontend: FrontendView, sourceConfig: SourceConfig, dryRun: bool)
      ensures Valid()
      ensures this.frontend == frontend && this.sourceConfig == sourceConfig && this.dryRun == dryRun
      ensures output == [] && executed == []
    {
      this.frontend := frontend;
      this.sourceConfig := sourceConfig;
      this.dryRun := dryRun;
      output := [];
      executed := [];
    }

    /** Print a line that is not a command. */
    method Notice(line: Line)
      requires Valid() && !line.RsyncLine?
      modifies this
      ensures Valid()
      ensures output == old(output) + [line] && executed == old(executed)
    {
      CommandsAppend(output, [line]);
      output := output + [line];
    }

    /** `_rsync`: print the command; run it unless this is a dry run. */
    method Rsync(source: string, destination: string)
      requires Valid()
      modifies this
      ensures Valid()
      ensures output == old(output) + [RsyncLine(Command(true, source, destination))]
      ensures executed == old(executed) + (if dryRun then [] else [Command(true, source, destination)])
    {
      CommandsAppend(output, [RsyncLine(Command(true, source, destination))]);
      output := output + [RsyncLine(Command(true, source, destination))];
      if dryRun {
        return;
      }
      executed := executed + [Command(true, source, destination)];
    }

    method CopyBiosFiles(systems: seq<System>)
      requires Valid()
      modifies this
      ensures Valid()
      ensures output == old(output) + BiosOutput(frontend, sourceConfig, systems)
    {
      for i := 0 to |systems|
        invariant Valid()
        invariant output == old(output) + BiosOutput(frontend, sourceConfig, systems[..i])
      {
        var system := systems[i];
        assert systems[..i + 1][..i] == systems[..i];
        var sourceSubdir := sourceConfig.BiosSubdir(system);
        if !Present(sourceSubdir) {
          continue;
        }
        var destinationDir := frontend.biosDirectory(system);
        if !Present(destinationDir) {
          continue;
        }
        var sourcePath := Join(sourceConfig.BiosDir(), sourceSubdir.value) + "/";
        var destinationPath := destinationDir.value + "/";
        Rsync(sourcePath, destinationPath);
      }
      assert systems[..|systems|] == systems;
    }

    method CopyRomFiles(systems: seq<System>, copySourceDirectory: bool)
      requires Valid()
      modifies this
      ensures Valid()
      ensures output == old(output) + RomOutput(frontend, sourceConfig, systems, copySourceDirectory)
    {
      for i := 0 to |systems|
        invariant Valid()
        invariant output == old(output) + RomOutput(frontend, sourceConfig, systems[..i], copySourceDirectory)
      {
        var system := systems[i];
        assert systems[..i + 1][..i] == systems[..i];
        ghost var next := RomOutput(frontend, sourceConfig, systems[..i + 1], copySourceDirectory);
        assert next == RomOutput(frontend, sourceConfig, systems[..i], copySourceDirectory)
          + RomStep(frontend, sourceConfig, system, copySourceDirectory);
        var sourceSubdir := sourceConfig.RomsSubdir(system);
        if !Present(sourceSubdir) {
          Notice(NoSourceRoms(system));
          continue;
        }
        var destinationDir := frontend.romsDirectory(system);
        if !Present(destinationDir) {
          Notice(NoDestination(system, frontend.name));
          continue;
        }
        var sourcePath := Join(sourceConfig.RomsDir(), sourceSubdir.value) + "/";
        if !copySourceDirectory {
          sourcePath := sourcePath + "/";
        }
        var destinationPath := destinationDir.value;
        Rsync(sourcePath, destinationPath);
      }
      assert systems[..|systems|] == systems;
    }
  }

  /** The BIOS copy of a list of lists is the copies of its parts, in order. */
  lemma {:induction false} BiosOutputAppend(v: FrontendView, cfg: SourceConfig, xs: seq<System>, ys: seq<System>)
    ensures BiosOutput(v, cfg, xs + ys) == BiosOutput(v, cfg, xs) + BiosOutput(v, cfg, ys)
    decreases |ys|
  {
    if ys == [] {
      assert xs + ys == xs;
    } else {
      var init, last := ys[..|ys| - 1], ys[|ys| - 1];
      assert (xs + ys)[..|xs + ys| - 1] == xs + init;
      assert (xs + ys)[|xs + ys| - 1] == last;
      BiosOutputAppend(v, cfg, xs, init);
    }
  }

  /** The ROM copy of a list of lists is the copies of its parts, in order. */
  lemma {:induction false} RomOutputAppend(v: FrontendView, cfg: SourceConfig, xs: seq<System>, ys: seq<System>, copySourceDirectory: bool)
    ensures RomOutput(v, cfg, xs + ys, copySourceDirectory)
      == RomOutput(v, cfg, xs, copySourceDirectory) + RomOutput(v, cfg, ys, copySourceDirectory)
    decreases |ys|
  {
    if ys == [] {
      assert xs + ys == xs;
    } else {
      var init, last := ys[..|ys| - 1], ys[|ys| - 1];
      assert (xs + ys)[..|xs + ys| - 1] == xs + init;
      assert (xs + ys)[|xs + ys| - 1] == last;
      RomOutputAppend(v, cfg, xs, init, copySourceDirectory);
    }
  }

  /** One BIOS step issues at most one rsync, and none exactly when the
      source subdirectory or the destination is missing. The rsync copies
      the contents of the source subdirectory (trailing "/") into the
      destination directory (trailing "/"). */
  lemma BiosStepShape(v: FrontendView, cfg: SourceConfig, s: System)
    ensures |BiosStep(v, cfg, s)| <= 1
    ensures BiosStep(v, cfg, s) == [] <==> !Present(cfg.BiosSubdir(s)) || !Present(v.biosDirectory(s))
    ensures BiosStep(v, cfg, s) != [] ==>
      var c := BiosStep(v, cfg, s)[0];
      c.RsyncLine? && c.cmd.sizeOnly && EndsWith(c.cmd.source, "/")
      && EndsWith(c.cmd.destination, "/") && c.cmd.destination[..|c.cmd.destination| - 1] == v.biosDirectory(s).value
  {
    if BiosStep(v, cfg, s) != [] {
      var c := BiosStep(v, cfg, s)[0].cmd;
      assert c.source[|c.source| - 1..] == "/";
      assert c.destination[|c.destination| - 1..] == "/";
    }
  }

  /** On the tool's own frontends a BIOS rsync is skipped only for a missing
      source subdirectory or a MinUI system without a BIOS folder, and its
      destination is the frontend's BIOS directory with exactly one slash
      added. */
  lemma BiosStepOnFrontend(f: Frontend, cfg: SourceConfig, s: System)
    ensures BiosStep(View(f), cfg, s) == [] <==> !Present(cfg.BiosSubdir(s)) || BiosDirectory(f, s).None?
    ensures BiosStep(View(f), cfg, s) != [] ==>
      StripTrailingSlashes(BiosStep(View(f), cfg, s)[0].cmd.destination) == BiosDirectory(f, s).value
  {
    BiosDirectoryNormal(f, s);
    BiosStepShape(View(f), cfg, s);
    if BiosStep(View(f), cfg, s) != [] {
      var dir := BiosDirectory(f, s).value;
      assert (dir + "/")[..|dir + "/"| - 1] == dir;
    }
  }

  /** Every rsync of the BIOS copy comes from one of the given systems; there
      are at most as many as systems; and every system with a source
      subdirectory and a destination gets its rsync. */
  lemma {:induction false} BiosOutputCoverage(v: FrontendView, cfg: SourceConfig, systems: seq<System>)
    ensures |BiosOutput(v, cfg, systems)| <= |systems|
    ensures forall l :: l in BiosOutput(v, cfg, systems) ==>
      exists s :: s in systems && BiosStep(v, cfg, s) == [l]
    ensures forall s :: s in systems && Present(cfg.BiosSubdir(s)) && Present(v.biosDirectory(s)) ==>
      BiosStep(v, cfg, s)[0] in BiosOutput(v, cfg, systems)
    decreases |systems|
  {
    if systems != [] {
      var init, last := systems[..|systems| - 1], systems[|systems| - 1];
      BiosOutputCoverage(v, cfg, init);
      BiosStepShape(v, cfg, last);
      assert systems == init + [last];
      forall s | s in systems && Present(cfg.BiosSubdir(s)) && Present(v.biosDirectory(s))
        ensures BiosStep(v, cfg, s)[0] in BiosOutput(v, cfg, systems)
      {
        BiosStepShape(v, cfg, s);
      }
    }
  }

  /** One ROM step prints exactly one line: a missing-source notice, a
      missing-destination notice naming the frontend, or an rsync whose
      source ends in "//" (copy the contents) unless the directory itself is
      copied, and whose destination is the frontend's ROM directory as it
      stands, with no slash added. */
  lemma RomStepShape(v: FrontendView, cfg: SourceConfig, s: System, copySourceDirectory: bool)
    ensures |RomStep(v, cfg, s, copySourceDirectory)| == 1
    ensures !Present(cfg.RomsSubdir(s)) ==> RomStep(v, cfg, s, copySourceDirectory) == [NoSourceRoms(s)]
    ensures Present(cfg.RomsSubdir(s)) && !Present(v.romsDirectory(s)) ==>
      RomStep(v, cfg, s, copySourceDirectory) == [NoDestination(s, v.name)]
    ensures Present(cfg.RomsSubdir(s)) && Present(v.romsDirectory(s)) ==>
      var c := RomStep(v, cfg, s, copySourceDirectory)[0];
      c.RsyncLine? && c.cmd.sizeOnly
      && EndsWith(c.cmd.source, if copySourceDirectory then "/" else "//")
      && (copySourceDirectory && PlainSegment(cfg.RomsSubdir(s).value) ==> !EndsWith(c.cmd.source, "//"))
      && c.cmd.destination == v.romsDirectory(s).value
  {
    if Present(cfg.RomsSubdir(s)) && Present(v.romsDirectory(s)) {
      var sub := cfg.RomsSubdir(s).value;
      var joined := Join(cfg.RomsDir(), sub);
      var src := RomSource(cfg, sub, copySourceDirectory);
      if copySourceDirectory {
        assert src == joined + "/";
        assert src[|src| - 1..] == "/";
        if PlainSegment(sub) {
          JoinPlain(cfg.RomsDir(), sub);
          assert src[|src| - 2] == joined[|joined| - 1];
        }
      } else {
        assert src == joined + "//";
        assert src[|src| - 2..] == "//";
      }
    }
  }

  /** On the tool's own frontends a system with a source subdirectory is
      reported as having no destination exactly when the frontend's ROM
      table has no entry for it. */
  lemma RomStepOnFrontend(f: Frontend, cfg: SourceConfig, s: System, copySourceDirectory: bool)
    ensures RomStep(View(f), cfg, s, copySourceDirectory) == [NoDestination(s, Name(f))]
      <==> Present(cfg.RomsSubdir(s)) && !Present(RomsSubdir(f, s))
  {
    RomsDirectoryLayout(f, s);
  }

  /** The ROM copy prints exactly one line per system, in the systems'
      order. */
  lemma {:induction false} RomOutputPerSystem(v: FrontendView, cfg: SourceConfig, systems: seq<System>, copySourceDirectory: bool)
    ensures |RomOutput(v, cfg, systems, copySourceDirectory)| == |systems|
    ensures forall i :: 0 <= i < |systems| ==>
      [RomOutput(v, cfg, systems, copySourceDirectory)[i]] == RomStep(v, cfg, systems[i], copySourceDirectory)
    decreases |systems|
  {
    if systems != [] {
      var init, last := systems[..|systems| - 1], systems[|systems| - 1];
      RomOutputPerSystem(v, cfg, init, copySourceDirectory);
      RomStepShape(v, cfg, last, copySourceDirectory);
      var out := RomOutput(v, cfg, systems, copySourceDirectory);
      forall i | 0 <= i < |systems|
        ensures [out[i]] == RomStep(v, cfg, systems[i], copySourceDirectory)
      {
        if i < |init| {
          assert out[i] == RomOutput(v, cfg, init, copySourceDirectory)[i];
          assert systems[i] == init[i];
        }
      }
    }
  }
}
