/** `RomSizeDisplay` of the current version: a `du` over the source ROM
    directories of some systems, run on the source host over SSH. Running
    `ssh` and its output are not modelled; the command it would run is the
    result. */
module Sizes {
  import opened Systems
  import opened Wrappers
  import opened Paths
  import opened Effects
  import opened SourceConfigs
  import opened Sorting

  /** The quoted directory `display` hands to `du` for a ROM subdirectory. */
  function SizeEntry(cfg: SourceConfig, subdir: string): string {
    "'" + Join(cfg.sourceRomsDir, subdir) + "/'"
  }

  /** The systems that the report lists, in the given order: those `has`
      holds of. */
  function Listed(has: System -> bool, systems: seq<System>): seq<System>
    decreases |systems|
  {
    if systems == [] then []
    else
      var last := systems[|systems| - 1];
      Listed(has, systems[..|systems| - 1]) + (if has(last) then [last] else [])
  }

  /** The current version lists a system that has a (non-empty) ROM
      subdirectory. */
  function HasRoms(cfg: SourceConfig): System -> bool {
    s => Present(cfg.RomsSubdir(s))
  }

  /** The directory list `display` builds while walking `systems`. */
  function Entries(cfg: SourceConfig, systems: seq<System>): seq<string>
    decreases |systems|
  {
    if systems == [] then []
    else
      var subdir := cfg.RomsSubdir(systems[|systems| - 1]);
      Entries(cfg, systems[..|systems| - 1]) + (if Present(subdir) then [SizeEntry(cfg, subdir.value)] else [])
  }

  /** What `display` runs: nothing when no system is listed, otherwise one
      `du` over every listed directory, on the source host. */
  function SizesCommand(cfg: SourceConfig, systems: seq<System>): Option<SshCommand> {
    var directories := Entries(cfg, SortBy(Value, systems));
    if directories == [] then None
    else Some(SshCommand(cfg.remoteHostname, DuCommand(directories)))
  }

  method Display(systems: seq<System>, cfg: SourceConfig) returns (ssh: Option<SshCommand>)
    ensures ssh == SizesCommand(cfg, systems)
  {
    var sortedSystems := SortBy(Value, systems);
    var romDirectories: seq<string> := [];
    for i := 0 to |sortedSystems|
      invariant romDirectories == Entries(cfg, sortedSystems[..i])
    {
      assert sortedSystems[..i + 1][..i] == sortedSystems[..i];
      var sourceSubdir := cfg.RomsSubdir(sortedSystems[i]);
      if !Present(sourceSubdir) {
        continue;
      }
      var path := Join(cfg.sourceRomsDir, sourceSubdir.value);
      romDirectories := romDirectories + ["'" + path + "/'"];
    }
    assert sortedSystems[..|sortedSystems|] == sortedSystems;
    if romDirectories == [] {
      return None;
    }
    var command := DuCommand(romDirectories);
    return Some(SshCommand(cfg.remoteHostname, command));
  }

  /** The directory list has one entry per listed system, in the same order. */
  lemma {:induction false} EntriesOfListed(cfg: SourceConfig, systems: seq<System>)
    ensures |Entries(cfg, systems)| == |Listed(HasRoms(cfg), systems)|
    ensures forall i :: 0 <= i < |Listed(HasRoms(cfg), systems)| ==>
      Present(cfg.RomsSubdir(Listed(HasRoms(cfg), systems)[i]))
      && Entries(cfg, systems)[i] == SizeEntry(cfg, cfg.RomsSubdir(Listed(HasRoms(cfg), systems)[i]).value)
    decreases |systems|
  {
    if systems != [] {
      var init := systems[..|systems| - 1];
      EntriesOfListed(cfg, init);
      var es, ls := Entries(cfg, systems), Listed(HasRoms(cfg), systems);
      forall i | 0 <= i < |ls|
        ensures Present(cfg.RomsSubdir(ls[i])) && es[i] == SizeEntry(cfg, cfg.RomsSubdir(ls[i]).value)
      {
        if i < |Listed(HasRoms(cfg), init)| {
          assert ls[i] == Listed(HasRoms(cfg), init)[i];
          assert es[i] == Entries(cfg, init)[i];
        }
      }
    }
  }

  /** A system is listed as often as it occurs, if `has` holds of it, and
      never otherwise. */
  lemma {:induction false} ListedCount(has: System -> bool, systems: seq<System>, s: System)
    ensures multiset(Listed(has, systems))[s] == if has(s) then multiset(systems)[s] else 0
    decreases |systems|
  {
    if systems != [] {
      var init := systems[..|systems| - 1];
      assert systems == init + [systems[|systems| - 1]];
      ListedCount(has, init, s);
    }
  }

  /** Listing keeps a sorted order. */
  lemma {:induction false} ListedSorted(key: System -> string, has: System -> bool, systems: seq<System>)
    requires SortedBy(key, systems)
    ensures SortedBy(key, Listed(has, systems))
    decreases |systems|
  {
    if systems != [] {
      var init, last := systems[..|systems| - 1], systems[|systems| - 1];
      assert SortedBy(key, init) by {
        forall i, j | 0 <= i < j < |init| ensures KeyLe(key, init[i], init[j]) {
          assert init[i] == systems[i] && init[j] == systems[j];
        }
      }
      ListedSorted(key, has, init);
      var l := Listed(has, init);
      if has(last) {
        forall k | 0 <= k < |l| ensures KeyLe(key, l[k], last) {
          ListedCount(has, init, l[k]);
          assert l[k] in multiset(l);
          assert l[k] in init;
          var i :| 0 <= i < |init| && init[i] == l[k];
          assert systems[i] == l[k] && systems[|systems| - 1] == last;
        }
        var r := Listed(has, systems);
        assert r == l + [last];
        forall i, j | 0 <= i < j < |r| ensures KeyLe(key, r[i], r[j]) {
          if j < |l| {
            assert r[i] == l[i] && r[j] == l[j];
          } else {
            assert r[i] == l[i] && r[j] == last;
          }
        }
      }
    }
  }

  /** Sorting by value and then listing gives exactly the given systems that
      `has` holds of (as often as they are given), sorted by value. */
  lemma SortedListing(has: System -> bool, systems: seq<System>)
    ensures SortedBy(Value, Listed(has, SortBy(Value, systems)))
    ensures forall s ::
      multiset(Listed(has, SortBy(Value, systems)))[s] == if has(s) then multiset(systems)[s] else 0
  {
    SortBySorted(Value, systems);
    ListedSorted(Value, has, SortBy(Value, systems));
    forall s ensures multiset(Listed(has, SortBy(Value, systems)))[s]
      == if has(s) then multiset(systems)[s] else 0
    {
      ListedCount(has, SortBy(Value, systems), s);
    }
  }

  /** The sizes report lists exactly the given systems that have a ROM
      subdirectory (as often as they are given), sorted by value. */
  lemma SizesListing(cfg: SourceConfig, systems: seq<System>)
    ensures SortedBy(Value, Listed(HasRoms(cfg), SortBy(Value, systems)))
    ensures forall s ::
      multiset(Listed(HasRoms(cfg), SortBy(Value, systems)))[s]
        == if Present(cfg.RomsSubdir(s)) then multiset(systems)[s] else 0
  {
    SortedListing(HasRoms(cfg), systems);
  }

  /** The report runs nothing exactly when no given system has a ROM
      subdirectory; otherwise it runs `du` on the source host. */
  lemma SizesCommandNoneIff(cfg: SourceConfig, systems: seq<System>)
    ensures SizesCommand(cfg, systems).None? <==> forall s :: s in systems ==> !Present(cfg.RomsSubdir(s))
    ensures SizesCommand(cfg, systems).Some? ==> SizesCommand(cfg, systems).value.host == cfg.remoteHostname
  {
    var sorted := SortBy(Value, systems);
    EntriesOfListed(cfg, sorted);
    SizesListing(cfg, systems);
    var l := Listed(HasRoms(cfg), sorted);
    if l == [] {
      forall s | s in systems ensures !Present(cfg.RomsSubdir(s)) {
        assert multiset(l)[s] == 0;
      }
    } else {
      assert multiset(l)[l[0]] > 0;
      assert l[0] in systems;
    }
  }
}
