/** `FileCopier` of the earlier Ruby version: the same walk over the
    systems as the current copier, with plain `rsync -avP` commands built by
    string interpolation from the `SourceConfig` module, and a trailing
    slash on every destination. */
module LegacyCopier {
  import opened Systems
  import opened Wrappers
  import opened Strings
  import opened Effects
  import opened SourceConfigs
  import opened LegacySource
  import opened LegacyFrontends
  import Copier

  type FrontendView = Copier.FrontendView

  /** The view of one of the earlier version's frontends. */
  function View(f: Frontend): (v: FrontendView)
    ensures v.name == Name(f)
    ensures forall s :: v.biosDirectory(s) == BiosDirectory(f, s)
    ensures forall s :: v.romsDirectory(s) == RomsDirectory(f, s)
  {
    Copier.FrontendView(Name(f), s => BiosDirectory(f, s), s => RomsDirectory(f, s))
  }

  /** What `copy_bios_files` prints for one system: nothing when the source
      has no BIOS subdirectory for it or the frontend no BIOS directory,
      otherwise one rsync of the subdirectory's contents into the BIOS
      directory. */
  function BiosStep(v: FrontendView, lib: Library, s: System): seq<Line> {
    var sourceSubdir := lib.biosSubdir(s);
    if sourceSubdir.None? then []
    else
      var destinationDir := v.biosDirectory(s);
      if destinationDir.None? then []
      else [RsyncLine(Command(false, lib.biosDir + "/" + sourceSubdir.value + "/", destinationDir.value + "/"))]
  }

  /** Everything `copy_bios_files` prints for `systems`, in order. */
  function BiosOutput(v: FrontendView, lib: Library, systems: seq<System>): seq<Line>
    decreases |systems|
  {
    if systems == [] then []
    else BiosOutput(v, lib, systems[..|systems| - 1]) + BiosStep(v, lib, systems[|systems| - 1])
  }

  /** The rsync source for a ROM subdirectory: its contents ("/") and,
      unless the directory itself is to be copied, a second slash. */
  function RomSource(lib: Library, subdir: string, copySourceDirectory: bool): string {
    var sourcePath := lib.romsDir + "/" + subdir + "/";
    if copySourceDirectory then sourcePath else sourcePath + "/"
  }

  /** What `copy_rom_files` prints for one system: a notice when the source
      has no ROM subdirectory or the frontend no ROM directory for it,
      otherwise one rsync into the ROM directory. */
  function RomStep(v: FrontendView, lib: Library, s: System, copySourceDirectory: bool): seq<Line> {
    var sourceSubdir := lib.romsSubdir(s);
    if sourceSubdir.None? then [NoSourceRoms(s)]
    else
      var destinationDir := v.romsDirectory(s);
      if destinationDir.None? then [NoDestination(s, v.name)]
      else [RsyncLine(Command(false, RomSource(lib, sourceSubdir.value, copySourceDirectory), destinationDir.value + "/"))]
  }

  /** Everything `copy_rom_files` prints for `systems`, in order. */
  function RomOutput(v: FrontendView, lib: Library, systems: seq<System>, copySourceDirectory: bool): seq<Line>
    decreases |systems|
  {
    if systems == [] then []
    else
      RomOutput(v, lib, systems[..|systems| - 1], copySourceDirectory)
        + RomStep(v, lib, systems[|systems| - 1], copySourceDirectory)
  }

  class FileCopier {
    const frontend: FrontendView
    /** The `SourceConfig` module the copier reads. */
    const library: Library
    const dryRun: bool
    /** The lines printed so far. */
    var output: seq<Line>
    /** The rsync commands run so far. */
    var executed: seq<Command>

    /** The copier has run exactly the commands it printed, or none in a dry
        run. */
    predicate Valid()
      reads this
    {
      executed == Executed(dryRun, output)
    }

    constructor(frontend: FrontendView, library: Library, dryRun: bool)
      ensures Valid()
      ensures this.frontend == frontend && this.library == library && this.dryRun == dryRun
      ensures output == [] && executed == []
    {
      this.frontend := frontend;
      this.library := library;
      this.dryRun := dryRun;
      output := [];
      executed := [];
    }

    /** `puts` of a line that is not a command. */
    method Notice(line: Line)
      requires Valid() && !line.RsyncLine?
      modifies this
      ensures Valid()
      ensures output == old(output) + [line] && executed == old(executed)
    {
      CommandsAppend(output, [line]);
      output := output + [line];
    }

    /** `rsync`: print the command; run it unless this is a dry run. */
    method Rsync(source: string, destination: string)
      requires Valid()
      modifies this
      ensures Valid()
      ensures output == old(output) + [RsyncLine(Command(false, source, destination))]
      ensures executed == old(executed) + (if dryRun then [] else [Command(false, source, destination)])
    {
      CommandsAppend(output, [RsyncLine(Command(false, source, destination))]);
      output := output + [RsyncLine(Command(false, source, destination))];
      if dryRun {
        return;
      }
      executed := executed + [Command(false, source, destination)];
    }

    method CopyBiosFiles(systems: seq<System>)
      requires Valid()
      modifies this
      ensures Valid()
      ensures output == old(output) + BiosOutput(frontend, library, systems)
    {
      for i := 0 to |systems|
        invariant Valid()
        invariant output == old(output) + BiosOutput(frontend, library, systems[..i])
      {
        var system := systems[i];
        assert systems[..i + 1][..i] == systems[..i];
        var sourceSubdir := library.biosSubdir(system);
        if sourceSubdir.None? {
          continue;
        }
        var destinationDir := frontend.biosDirectory(system);
        if destinationDir.None? {
          continue;
        }
        var sourcePath := library.biosDir + "/" + sourceSubdir.value + "/";
        var destinationPath := destinationDir.value + "/";
        Rsync(sourcePath, destinationPath);
      }
      assert systems[..|systems|] == systems;
    }

    method CopyRomFiles(systems: seq<System>, copySourceDirectory: bool)
      requires Valid()
      modifies this
      ensures Valid()
      ensures output == old(output) + RomOutput(frontend, library, systems, copySourceDirectory)
    {
      for i := 0 to |systems|
        invariant Valid()
        invariant output == old(output) + RomOutput(frontend, library, systems[..i], copySourceDirectory)
      {
        var system := systems[i];
        assert systems[..i + 1][..i] == systems[..i];
        ghost var next := RomOutput(frontend, library, systems[..i + 1], copySourceDirectory);
        assert next == RomOutput(frontend, library, systems[..i], copySourceDirectory)
          + RomStep(frontend, library, system, copySourceDirectory);
        var sourceSubdir := library.romsSubdir(system);
        if sourceSubdir.None? {
          Notice(NoSourceRoms(system));
          continue;
        }
        var destinationDir := frontend.romsDirectory(system);
        if destinationDir.None? {
          Notice(NoDestination(system, frontend.name));
          continue;
        }
        var sourcePath := library.romsDir + "/" + sourceSubdir.value + "/";
        if !copySourceDirectory {
          sourcePath := sourcePath + "/";
        }
        var destinationPath := destinationDir.value + "/";
        Rsync(sourcePath, destinationPath);
      }
      assert systems[..|systems|] == systems;
    }
  }

  /** The BIOS copy of a list of lists is the copies of its parts, in order. */
  lemma {:induction false} BiosOutputAppend(v: FrontendView, lib: Library, xs: seq<System>, ys: seq<System>)
    ensures BiosOutput(v, lib, xs + ys) == BiosOutput(v, lib, xs) + BiosOutput(v, lib, ys)
    decreases |ys|
  {
    if ys == [] {
      assert xs + ys == xs;
    } else {
      var init, last := ys[..|ys| - 1], ys[|ys| - 1];
      assert (xs + ys)[..|xs + ys| - 1] == xs + init;
      assert (xs + ys)[|xs + ys| - 1] == last;
      BiosOutputAppend(v, lib, xs, init);
    }
  }

  /** The ROM copy of a list of lists is the copies of its parts, in order. */
  lemma {:induction false} RomOutputAppend(v: FrontendView, lib: Library, xs: seq<System>, ys: seq<System>, copySourceDirectory: bool)
    ensures RomOutput(v, lib, xs + ys, copySourceDirectory)
      == RomOutput(v, lib, xs, copySourceDirectory) + RomOutput(v, lib, ys, copySourceDirectory)
    decreases |ys|
  {
    if ys == [] {
      assert xs + ys == xs;
    } else {
      var init, last := ys[..|ys| - 1], ys[|ys| - 1];
      assert (xs + ys)[..|xs + ys| - 1] == xs + init;
      assert (xs + ys)[|xs + ys| - 1] == last;
      RomOutputAppend(v, lib, xs, init, copySourceDirectory);
    }
  }

  /** One BIOS step issues at most one rsync, and none exactly when the
      source subdirectory or the destination is missing. The rsync copies
      the contents of the source subdirectory (trailing "/") into the
      destination directory, to which exactly one slash is added. */
  lemma BiosStepShape(v: FrontendView, lib: Library, s: System)
    ensures |BiosStep(v, lib, s)| <= 1
    ensures BiosStep(v, lib, s) == [] <==> lib.biosSubdir(s).None? || v.biosDirectory(s).None?
    ensures BiosStep(v, lib, s) != [] ==>
      var c := BiosStep(v, lib, s)[0];
      c.RsyncLine? && !c.cmd.sizeOnly && EndsWith(c.cmd.source, "/" + lib.biosSubdir(s).value + "/")
      && c.cmd.destination == v.biosDirectory(s).value + "/"
  {
    if BiosStep(v, lib, s) != [] {
      var sub := lib.biosSubdir(s).value;
      var src := BiosStep(v, lib, s)[0].cmd.source;
      assert src == lib.biosDir + ("/" + sub + "/");
      assert src[|src| - |"/" + sub + "/"|..] == "/" + sub + "/";
    }
  }

  /** Every rsync of the BIOS copy comes from one of the given systems; there
      are at most as many as systems; and every system with a source
      subdirectory and a destination gets its rsync. */
  lemma {:induction false} BiosOutputCoverage(v: FrontendView, lib: Library, systems: seq<System>)
    ensures |BiosOutput(v, lib, systems)| <= |systems|
    ensures forall l :: l in BiosOutput(v, lib, systems) ==>
      exists s :: s in systems && BiosStep(v, lib, s) == [l]
    ensures forall s :: s in systems && lib.biosSubdir(s).Some? && v.biosDirectory(s).Some? ==>
      BiosStep(v, lib, s)[0] in BiosOutput(v, lib, systems)
    decreases |systems|
  {
    if systems != [] {
      var init, last := systems[..|systems| - 1], systems[|systems| - 1];
      BiosOutputCoverage(v, lib, init);
      BiosStepShape(v, lib, last);
      assert systems == init + [last];
      forall s | s in systems && lib.biosSubdir(s).Some? && v.biosDirectory(s).Some?
        ensures BiosStep(v, lib, s)[0] in BiosOutput(v, lib, systems)
      {
        BiosStepShape(v, lib, s);
      }
    }
  }

  /** One ROM step prints exactly one line: a missing-source notice, a
      missing-destination notice naming the frontend, or an rsync of the
      entry's directory whose source ends in "//" (copy the contents) unless
      the directory itself is copied, into the frontend's ROM directory with
      one slash added. */
  lemma RomStepShape(v: FrontendView, lib: Library, s: System, copySourceDirectory: bool)
    ensures |RomStep(v, lib, s, copySourceDirectory)| == 1
    ensures lib.romsSubdir(s).None? ==> RomStep(v, lib, s, copySourceDirectory) == [NoSourceRoms(s)]
    ensures lib.romsSubdir(s).Some? && v.romsDirectory(s).None? ==>
      RomStep(v, lib, s, copySourceDirectory) == [NoDestination(s, v.name)]
    ensures lib.romsSubdir(s).Some? && v.romsDirectory(s).Some? ==>
      var c := RomStep(v, lib, s, copySourceDirectory)[0];
      var tail := if copySourceDirectory then "/" else "//";
      c.RsyncLine? && !c.cmd.sizeOnly
      && EndsWith(c.cmd.source, "/" + lib.romsSubdir(s).value + tail)
      && c.cmd.destination == v.romsDirectory(s).value + "/"
  {
    if lib.romsSubdir(s).Some? && v.romsDirectory(s).Some? {
      var sub := lib.romsSubdir(s).value;
      var tail := if copySourceDirectory then "/" else "//";
      var src := RomSource(lib, sub, copySourceDirectory);
      assert src == lib.romsDir + ("/" + sub + tail);
      assert src[|src| - |"/" + sub + tail|..] == "/" + sub + tail;
    }
  }

  /** The ROM copy prints exactly one line per system, in the systems'
      order. */
  lemma {:induction false} RomOutputPerSystem(v: FrontendView, lib: Library, systems: seq<System>, copySourceDirectory: bool)
    ensures |RomOutput(v, lib, systems, copySourceDirectory)| == |systems|
    ensures forall i :: 0 <= i < |systems| ==>
      [RomOutput(v, lib, systems, copySourceDirectory)[i]] == RomStep(v, lib, systems[i], copySourceDirectory)
    decreases |systems|
  {
    if systems != [] {
      var init, last := systems[..|systems| - 1], systems[|systems| - 1];
      RomOutputPerSystem(v, lib, init, copySourceDirectory);
      RomStepShape(v, lib, last, copySourceDirectory);
      var out := RomOutput(v, lib, systems, copySourceDirectory);
      forall i | 0 <= i < |systems|
        ensures [out[i]] == RomStep(v, lib, systems[i], copySourceDirectory)
      {
        if i < |init| {
          assert out[i] == RomOutput(v, lib, init, copySourceDirectory)[i];
          assert systems[i] == init[i];
        }
      }
    }
  }

  /** On the earlier version's frontends a BIOS rsync is skipped only for a
      missing source subdirectory or a MinUI system without a BIOS folder. */
  lemma BiosStepOnFrontend(f: Frontend, lib: Library, s: System)
    ensures BiosStep(View(f), lib, s) == [] <==> lib.biosSubdir(s).None? || (f.MinUI? && MinUIBios(s).None?)
  {
    BiosStepShape(View(f), lib, s);
  }

  /** On the earlier version's frontends a system with a source
      subdirectory is reported as having no destination exactly when the
      frontend does not support it. */
  lemma RomStepOnFrontend(f: Frontend, lib: Library, s: System, copySourceDirectory: bool)
    ensures RomStep(View(f), lib, s, copySourceDirectory) == [NoDestination(s, Name(f))]
      <==> lib.romsSubdir(s).Some? && s !in SupportedSystems(f)
  {
  }

  /** Text after "nas-01:" is read by rsync as a path on that host. */
  lemma OnRemoteHost(path: string)
    ensures NamesRemoteHost(RemoteHostname + ":" + path)
  {
    HostIsPlain();
    NamesRemoteHostAfterHost(RemoteHostname, path);
  }

  /** With the module's library directories, which `Source()` has, every
      BIOS rsync reads from `nas-01`. */
  lemma BiosSourceIsRemote(v: FrontendView, lib: Library, s: System)
    requires lib.biosDir == BiosDir
    ensures BiosStep(v, lib, s) != [] ==> NamesRemoteHost(BiosStep(v, lib, s)[0].cmd.source)
  {
    if BiosStep(v, lib, s) != [] {
      var tail := "/" + lib.biosSubdir(s).value + "/";
      OnRemoteHost(LocalBiosDir + tail);
      assert BiosStep(v, lib, s)[0].cmd.source == RemoteHostname + ":" + (LocalBiosDir + tail);
    }
  }

  /** With the module's library directories, which `Source()` has, every
      ROM rsync reads from `nas-01`. */
  lemma RomSourceIsRemote(v: FrontendView, lib: Library, s: System, copySourceDirectory: bool)
    requires lib.romsDir == RomsDir
    ensures RomStep(v, lib, s, copySourceDirectory)[0].RsyncLine? ==>
      NamesRemoteHost(RomStep(v, lib, s, copySourceDirectory)[0].cmd.source)
  {
    if RomStep(v, lib, s, copySourceDirectory)[0].RsyncLine? {
      var tail := "/" + lib.romsSubdir(s).value + (if copySourceDirectory then "/" else "//");
      OnRemoteHost(LocalRomsDir + tail);
      assert RomStep(v, lib, s, copySourceDirectory)[0].cmd.source == RemoteHostname + ":" + (LocalRomsDir + tail);
    }
  }
}
