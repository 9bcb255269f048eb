/** `LevelConfig` of the current version: five nested ROM packs, chosen by a
    level string that is lowercased and stripped of "level-" and "level_". */
module Levels {
  import opened Systems
  import opened Wrappers
  import opened Strings

  /** `_LEVEL_1_SYSTEMS`. */
  const Level1: seq<System> := [
    ArcadeFinalburnneo, Pico8, NecTurbografx16, NecTurbografxCd,
    NintendoGameBoy, NintendoGameBoyAdvance, NintendoGameBoyColor,
    NintendoNes, NintendoSnes, Sega32x, SegaCd, SegaGameGear, SegaGenesis,
    SnkNeoGeoPocketColor]

  const Level2: seq<System> := Level1 + [SonyPlaystation]

  const Level3: seq<System> := Level2 + [Nintendo64, SegaDreamcast, SegaSaturn, SnkNeoGeoCd]

  const Level4: seq<System> := Level3 + [NintendoGamecube, SonyPlaystation2]

  const Level5: seq<System> := Level4 + [NintendoSwitch, NintendoWiiu, SonyPlaystation3]

  /** The keys of `_LEVELS`. */
  const LevelKeys: set<string> := {"1", "2", "3", "4", "5"}

  /** `_LEVELS.get(key)`. */
  function LevelTable(key: string): Option<seq<System>> {
    if key == "1" then Some(Level1)
    else if key == "2" then Some(Level2)
    else if key == "3" then Some(Level3)
    else if key == "4" then Some(Level4)
    else if key == "5" then Some(Level5)
    else None
  }

  /** `level.lower().replace("level-", "").replace("level_", "")`. */
  function Normalize(level: string): string {
    DeleteAll(DeleteAll(Lower(level), "level-"), "level_")
  }

  /** `systems_for_level`. */
  function SystemsForLevel(level: string): Option<seq<System>> {
    LevelTable(Normalize(level))
  }

  /** `is_valid_level`: the normalised level is a key of `_LEVELS`, which is
      exactly when `systems_for_level` finds a pack. */
  function IsValidLevel(level: string): (r: bool)
    ensures r <==> SystemsForLevel(level).Some?
  {
    Normalize(level) in LevelKeys
  }

  /** Each pack extends the previous one; the packs hold 14, 15, 19, 21 and
      24 systems. */
  lemma LevelsNested()
    ensures |Level1| == 14 && |Level2| == 15 && |Level3| == 19 && |Level4| == 21 && |Level5| == 24
    ensures Level1 == Level2[..14] && Level2 == Level3[..15]
    ensures Level3 == Level4[..19] && Level4 == Level5[..21]
  {
  }

  /** Text with no `c` in it is left alone by a deletion of any pattern
      ending in `c`. */
  lemma {:induction false} DeleteAllWithoutLastChar(s: string, pat: string)
    requires pat != []
    requires forall i :: 0 <= i < |s| ==> s[i] != pat[|pat| - 1]
    ensures DeleteAll(s, pat) == s
  {
    if |s| >= |pat| {
      assert s[..|pat|][|pat| - 1] == s[|pat| - 1];
      DeleteAllWithoutLastChar(s[1..], pat);
      assert [s[0]] + s[1..] == s;
    }
  }

  /** A level key is one digit from 1 to 5. */
  lemma KeyIsDigit(key: string)
    requires key in LevelKeys
    ensures |key| == 1 && '1' <= key[0] <= '5'
  {
  }

  /** A level key is its own normal form. */
  lemma KeysAreNormal(key: string)
    requires key in LevelKeys
    ensures Normalize(key) == key
  {
    KeyIsDigit(key);
    LowerOfLowercase(key);
    DeleteAllWithoutLastChar(key, "level-");
    DeleteAllWithoutLastChar(key, "level_");
  }

  /** "level-" or "level_" in front of a key, in any letter case, selects
      the same pack as the bare key. */
  lemma {:induction false} LevelPrefixIgnored(prefix: string, key: string)
    requires Lower(prefix) == "level-" || Lower(prefix) == "level_"
    requires key in LevelKeys
    ensures SystemsForLevel(prefix + key) == LevelTable(key)
    ensures IsValidLevel(prefix + key)
  {
    KeyIsDigit(key);
    LowerOfLowercase(key);
    LowerAppend(prefix, key);
    assert Lower(prefix + key) == Lower(prefix) + key;
    if Lower(prefix) == "level-" {
      DashPrefixDeleted(key);
    } else {
      UnderscorePrefixDeleted(key);
    }
    assert Normalize(prefix + key) == key;
  }

  /** Normalising "level-" and a key leaves the key. */
  lemma DashPrefixDeleted(key: string)
    requires key in LevelKeys
    ensures DeleteAll(DeleteAll("level-" + key, "level-"), "level_") == key
  {
    KeyIsDigit(key);
    DeleteAllLeading("level-", key);
    DeleteAllWithoutLastChar(key, "level_");
  }

  /** Normalising "level_" and a key leaves the key. */
  lemma UnderscorePrefixDeleted(key: string)
    requires key in LevelKeys
    ensures DeleteAll(DeleteAll("level_" + key, "level-"), "level_") == key
  {
    KeyIsDigit(key);
    var low := "level_" + key;
    forall i | 0 <= i < |low| ensures low[i] != '-' {
      if i < 6 {
        assert low[i] == "level_"[i];
      } else {
        assert low[i] == key[i - 6];
      }
    }
    DeleteAllWithoutLastChar(low, "level-");
    DeleteAllLeading("level_", key);
    DeleteAllWithoutLastChar(key, "level-");
  }

  /** "level" without a separator is not stripped: "level3" names no pack. */
  lemma LevelWithoutSeparatorRejected()
    ensures !IsValidLevel("level3")
  {
    LowerOfLowercase("level3");
    DeleteAllWithoutLastChar("level3", "level-");
    DeleteAllWithoutLastChar("level3", "level_");
  }

  /** The spellings the usage text offers select the pack. */
  lemma LevelSpellings()
    ensures SystemsForLevel("3") == Some(Level3)
    ensures SystemsForLevel("level-3") == Some(Level3)
    ensures SystemsForLevel("LEVEL_3") == Some(Level3)
  {
    KeysAreNormal("3");
    assert "level-" + "3" == "level-3";
    assert Lower("level-") == "level-";
    LevelPrefixIgnored("level-", "3");
    assert "LEVEL_" + "3" == "LEVEL_3";
    assert Lower("LEVEL_") == "level_";
    LevelPrefixIgnored("LEVEL_", "3");
  }
}
