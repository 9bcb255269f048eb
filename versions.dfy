/** How the earlier Ruby version relates to the current one: the same
    frontends support the same systems, a handful of table entries were
    renamed, the frontends that live under one root put their files at the
    same places, and level words are read differently. */
module Versions {
  import opened Systems
  import opened Wrappers
  import opened Paths
  import Frontends
  import LegacyFrontends
  import Levels
  import LegacyLevels

  lemma BatoceraTablesAgree(s: System)
    ensures Frontends.BatoceraRoms(s).Some? <==> LegacyFrontends.BatoceraRoms(s).Some?
    ensures Frontends.BatoceraRoms(s) != LegacyFrontends.BatoceraRoms(s) <==> s == Nintendo3ds
  {
  }

  lemma EmuDeckTablesAgree(s: System)
    ensures Frontends.EmuDeckRoms(s) == LegacyFrontends.EmuDeckRoms(s)
  {
  }

  lemma EsDeTablesAgree(s: System)
    ensures Frontends.EsDeRoms(s).Some? <==> LegacyFrontends.EsDeRoms(s).Some?
    ensures Frontends.EsDeRoms(s) != LegacyFrontends.EsDeRoms(s)
      <==> s == NintendoFamicomDiskSystem || s == NintendoGamecube
  {
  }

  lemma MinUITablesAgree(s: System)
    ensures Frontends.MinUIBios(s) == LegacyFrontends.MinUIBios(s)
    ensures Frontends.MinUIRoms(s).Some? <==> LegacyFrontends.MinUIRoms(s).Some?
    ensures Frontends.MinUIRoms(s) != LegacyFrontends.MinUIRoms(s) <==> s == NintendoPokemonMini
  {
  }

  lemma MuOSTablesAgree(s: System)
    ensures Frontends.MuOSRoms(s) == LegacyFrontends.MuOSRoms(s)
  {
  }

  lemma OnionTablesAgree(s: System)
    ensures Frontends.OnionRoms(s).Some? <==> LegacyFrontends.OnionRoms(s).Some?
    ensures Frontends.OnionRoms(s) != LegacyFrontends.OnionRoms(s) <==> s == Pico8
  {
  }

  lemma SpruceTablesAgree(s: System)
    ensures Frontends.SpruceRoms(s).Some? <==> LegacyFrontends.SpruceRoms(s).Some?
    ensures Frontends.SpruceRoms(s) != LegacyFrontends.SpruceRoms(s) <==> s == ArcadeMame2003plus
  {
  }

  /** The current frontend of the same kind, rooted at `destinationDir`. */
  function Current(f: LegacyFrontends.Frontend, destinationDir: string): (g: Frontends.Frontend)
    ensures Frontends.Name(g) == LegacyFrontends.Name(f)
  {
    match f
    case Batocera(_) => Frontends.Batocera(destinationDir)
    case Knulli(_) => Frontends.Knulli(destinationDir)
    case EmuDeck(_) => Frontends.EmuDeck(destinationDir)
    case Esde(_, _) => Frontends.EsDe(destinationDir)
    case MinUI(_) => Frontends.MinUI(destinationDir)
    case MuOS(_) => Frontends.MuOS(destinationDir)
    case Rocknix(_) => Frontends.Rocknix(destinationDir)
    case Onion(_) => Frontends.Onion(destinationDir)
    case Spruce(_) => Frontends.Spruce(destinationDir)
  }

  /** Both versions' ROMs tables have an entry for a system, or neither has. */
  lemma TablesHaveSameKeys(f: LegacyFrontends.Frontend, d: string, s: System)
    ensures Frontends.RomsSubdir(Current(f, d), s).Some? <==> LegacyFrontends.RomsSubdir(f, s).Some?
  {
    var g := Current(f, d);
    match f
    case Batocera(_) =>
      assert Frontends.RomsSubdir(g, s) == Frontends.BatoceraRoms(s);
      BatoceraTablesAgree(s);
    case Knulli(_) =>
      assert Frontends.RomsSubdir(g, s) == Frontends.BatoceraRoms(s);
      BatoceraTablesAgree(s);
    case EmuDeck(_) =>
      assert Frontends.RomsSubdir(g, s) == Frontends.EmuDeckRoms(s);
      EmuDeckTablesAgree(s);
    case Esde(_, _) =>
      assert Frontends.RomsSubdir(g, s) == Frontends.EsDeRoms(s);
      EsDeTablesAgree(s);
    case MinUI(_) =>
      assert Frontends.RomsSubdir(g, s) == Frontends.MinUIRoms(s);
      MinUITablesAgree(s);
    case MuOS(_) =>
      assert Frontends.RomsSubdir(g, s) == Frontends.MuOSRoms(s);
      MuOSTablesAgree(s);
    case Rocknix(_) =>
      assert Frontends.RomsSubdir(g, s) == Frontends.EsDeRoms(s);
      EsDeTablesAgree(s);
    case Onion(_) =>
      assert Frontends.RomsSubdir(g, s) == Frontends.OnionRoms(s);
      OnionTablesAgree(s);
    case Spruce(_) =>
      assert Frontends.RomsSubdir(g, s) == Frontends.SpruceRoms(s);
      SpruceTablesAgree(s);
  }

  /** Every frontend supports the same systems in both versions. */
  lemma SameSupportedSystems(f: LegacyFrontends.Frontend, d: string)
    ensures Frontends.SupportedSystems(Current(f, d)) == LegacyFrontends.SupportedSystems(f)
  {
    forall s
      ensures s in Frontends.SupportedSystems(Current(f, d)) <==> s in LegacyFrontends.SupportedSystems(f)
    {
      TablesHaveSameKeys(f, d, s);
    }
  }

  /** A frontend that lives under one root: not ES-DE (two directories) and
      not ROCKNIX (a remote host). */
  predicate RootBased(f: LegacyFrontends.Frontend) {
    !f.Esde? && !f.Rocknix?
  }

  /** Both versions use the same directory names under the root. */
  lemma SameSegments(f: LegacyFrontends.Frontend, d: string)
    requires RootBased(f)
    ensures Frontends.RomsSegments(Current(f, d)) == LegacyFrontends.RomsSegments(f)
    ensures Frontends.BiosSegments(Current(f, d)) == LegacyFrontends.BiosSegments(f)
    ensures Current(f, d).destinationDir == d
  {
  }

  /** Under a non-empty root without a trailing slash, a root-based frontend
      puts a system's ROMs at the same place in both versions whenever the
      two tables agree on the entry. */
  lemma SameRomsDirectory(f: LegacyFrontends.Frontend, s: System)
    requires RootBased(f) && f.rootDir != "" && StripTrailingSlashes(f.rootDir) == f.rootDir
    requires Frontends.RomsSubdir(Current(f, f.rootDir), s) == LegacyFrontends.RomsSubdir(f, s)
    ensures Frontends.RomsDirectory(Current(f, f.rootDir), s) == LegacyFrontends.RomsDirectory(f, s)
  {
    var g := Current(f, f.rootDir);
    Frontends.RomsEntriesArePlain(g, s);
    if LegacyFrontends.RomsSubdir(f, s).Some? {
      var segs := LegacyFrontends.RomsSegments(f) + [LegacyFrontends.RomsSubdir(f, s).value];
      SameSegments(f, f.rootDir);
      Frontends.RomsDirectoryLayout(g, s);
      LegacyFrontends.RomsDirectoryLayout(f, s);
      LayoutJoinWith(f.rootDir, segs);
    }
  }

  /** Under a non-empty root without a trailing slash, a root-based frontend
      other than MinUI has the same BIOS directory in both versions. */
  lemma SameBiosDirectory(f: LegacyFrontends.Frontend, s: System)
    requires RootBased(f) && !f.MinUI? && f.rootDir != "" && StripTrailingSlashes(f.rootDir) == f.rootDir
    ensures Frontends.BiosDirectory(Current(f, f.rootDir), s) == LegacyFrontends.BiosDirectory(f, s)
  {
    var g := Current(f, f.rootDir);
    SameSegments(f, f.rootDir);
    Frontends.BiosDirectoryLayout(g);
    LegacyFrontends.BiosDirectoryLayout(f);
    LayoutJoinWith(f.rootDir, LegacyFrontends.BiosSegments(f));
  }

  /** "level3" names a pack only in the earlier version; there every pack is
      empty, while the current version's level 3 has 19 systems. */
  lemma LevelWordsDiffer()
    ensures !Levels.IsValidLevel("level3") && LegacyLevels.IsValidLevel("level3")
    ensures LegacyLevels.SystemsForLevel("3") == Some([])
    ensures Levels.SystemsForLevel("3") == Some(Levels.Level3) && |Levels.Level3| == 19
  {
    Levels.LevelWithoutSeparatorRejected();
    LegacyLevels.LevelSpellings("3");
    assert "level" + "3" == "level3";
    Levels.KeysAreNormal("3");
    Levels.LevelsNested();
  }
}
