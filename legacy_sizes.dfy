/** `RomSizeDisplay` of the earlier Ruby version: a `du` over the local ROM
    directories of some systems, run on the library host over SSH. Running
    `ssh` and its output are not modelled; the command it would run is the
    result. */
module LegacySizes {
  import opened Systems
  import opened Wrappers
  import opened Effects
  import opened LegacySource
  import opened Sorting
  import Sizes

  /** The directory `display` hands to `du` for a ROM subdirectory, quoted
      from the subdirectory on. */
  function SizeEntry(lib: Library, subdir: string): string {
    lib.localRomsDir + "/'" + subdir + "/'"
  }

  /** The earlier version lists a system that has an entry in the ROMs
      table. */
  function HasRoms(lib: Library): System -> bool {
    s => lib.romsSubdir(s).Some?
  }

  /** The directory list `display` builds while walking `systems`. */
  function Entries(lib: Library, systems: seq<System>): seq<string>
    decreases |systems|
  {
    if systems == [] then []
    else
      var subdir := lib.romsSubdir(systems[|systems| - 1]);
      Entries(lib, systems[..|systems| - 1]) + (if subdir.Some? then [SizeEntry(lib, subdir.value)] else [])
  }

  /** What `display` runs: nothing when no system is listed, otherwise one
      `du` over every listed directory, on the library host. */
  function SizesCommand(lib: Library, systems: seq<System>): Option<SshCommand> {
    var directories := Entries(lib, SortBy(Value, systems));
    if directories == [] then None
    else Some(SshCommand(lib.remoteHostname, DuCommand(directories)))
  }

  method Display(systems: seq<System>, lib: Library) returns (ssh: Option<SshCommand>)
    ensures ssh == SizesCommand(lib, systems)
  {
    var sortedSystems := SortBy(Value, systems);
    var romDirectories: seq<string> := [];
    for i := 0 to |sortedSystems|
      invariant romDirectories == Entries(lib, sortedSystems[..i])
    {
      var system := sortedSystems[i];
      EntriesStep(lib, sortedSystems, i);
      var sourceSubdir := lib.romsSubdir(system);
      if sourceSubdir.Some? {
        romDirectories := romDirectories + [SizeEntry(lib, sourceSubdir.value)];
      }
    }
    assert sortedSystems[..|sortedSystems|] == sortedSystems;
    if romDirectories == [] {
      return None;
    }
    var command := DuCommand(romDirectories);
    return Some(SshCommand(lib.remoteHostname, command));
  }

  /** Walking one more system adds its entry, if it has one. */
  lemma EntriesStep(lib: Library, systems: seq<System>, i: nat)
    requires i < |systems|
    ensures Entries(lib, systems[..i + 1])
      == Entries(lib, systems[..i]) + (if lib.romsSubdir(systems[i]).Some? then [SizeEntry(lib, lib.romsSubdir(systems[i]).value)] else [])
  {
    assert systems[..i + 1][..i] == systems[..i];
  }

  /** The directory list has one entry per listed system, in the same order. */
  lemma {:induction false} EntriesOfListed(lib: Library, systems: seq<System>)
    ensures |Entries(lib, systems)| == |Sizes.Listed(HasRoms(lib), systems)|
    ensures forall i :: 0 <= i < |Sizes.Listed(HasRoms(lib), systems)| ==>
      lib.romsSubdir(Sizes.Listed(HasRoms(lib), systems)[i]).Some?
      && Entries(lib, systems)[i] == SizeEntry(lib, lib.romsSubdir(Sizes.Listed(HasRoms(lib), systems)[i]).value)
    decreases |systems|
  {
    if systems != [] {
      var init := systems[..|systems| - 1];
      EntriesOfListed(lib, init);
      var es, ls := Entries(lib, systems), Sizes.Listed(HasRoms(lib), systems);
      forall i | 0 <= i < |ls|
        ensures lib.romsSubdir(ls[i]).Some? && es[i] == SizeEntry(lib, lib.romsSubdir(ls[i]).value)
      {
        if i < |Sizes.Listed(HasRoms(lib), init)| {
          assert ls[i] == Sizes.Listed(HasRoms(lib), init)[i];
          assert es[i] == Entries(lib, init)[i];
        }
      }
    }
  }

  /** The report lists exactly the given systems that have a ROMs entry (as
      often as they are given), sorted by their names. */
  lemma SizesListing(lib: Library, systems: seq<System>)
    ensures SortedBy(Value, Sizes.Listed(HasRoms(lib), SortBy(Value, systems)))
    ensures forall s ::
      multiset(Sizes.Listed(HasRoms(lib), SortBy(Value, systems)))[s]
        == if lib.romsSubdir(s).Some? then multiset(systems)[s] else 0
  {
    Sizes.SortedListing(HasRoms(lib), systems);
  }

  /** The report runs nothing exactly when no given system has a ROMs entry;
      otherwise it runs `du` on the library host. */
  lemma SizesCommandNoneIff(lib: Library, systems: seq<System>)
    ensures SizesCommand(lib, systems).None? <==> forall s :: s in systems ==> lib.romsSubdir(s).None?
    ensures SizesCommand(lib, systems).Some? ==> SizesCommand(lib, systems).value.host == lib.remoteHostname
  {
    var sorted := SortBy(Value, systems);
    EntriesOfListed(lib, sorted);
    SizesListing(lib, systems);
    var l := Sizes.Listed(HasRoms(lib), sorted);
    if l == [] {
      forall s | s in systems ensures lib.romsSubdir(s).None? {
        assert multiset(l)[s] == 0;
      }
    } else {
      assert multiset(l)[l[0]] > 0;
      assert l[0] in systems;
    }
  }
}
