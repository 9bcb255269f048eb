/** `LevelConfig` of the earlier Ruby version: five levels, every one of
    which selects no systems, chosen by a level string that is lowercased
    and stripped of "level" with an optional '-' or '_' after it. */
module LegacyLevels {
  import opened Systems
  import opened Wrappers
  import opened Strings

  /** The keys of `LEVELS`. */
  const LevelKeys: set<string> := {"1", "2", "3", "4", "5"}

  /** `LEVELS[key]`: every level's list is empty. */
  function LevelTable(key: string): Option<seq<System>> {
    if key == "1" then Some([])
    else if key == "2" then Some([])
    else if key == "3" then Some([])
    else if key == "4" then Some([])
    else if key == "5" then Some([])
    else None
  }

  /** Ruby `s.gsub(/level[-_]?/, '')`: scans left to right, deletes each
      "level" together with one '-' or '_' right after it, and goes on after
      the deleted text. */
  function GsubLevel(s: string): (r: string)
    ensures |r| <= |s|
    decreases |s|
  {
    if |s| >= 5 && s[..5] == "level" then
      var rest := s[5..];
      if rest != [] && (rest[0] == '-' || rest[0] == '_') then GsubLevel(rest[1..]) else GsubLevel(rest)
    else if s == [] then []
    else [s[0]] + GsubLevel(s[1..])
  }

  /** `level.to_s.downcase.gsub(/level[-_]?/, '')`. */
  function Normalize(level: string): string {
    GsubLevel(Lower(level))
  }

  /** `systems_for_level`. */
  function SystemsForLevel(level: string): Option<seq<System>> {
    LevelTable(Normalize(level))
  }

  /** `valid_level?`: the normalised level is a key of `LEVELS`, which is
      exactly when `systems_for_level` finds a list. */
  function IsValidLevel(level: string): (r: bool)
    ensures r <==> SystemsForLevel(level).Some?
  {
    Normalize(level) in LevelKeys
  }

  /** Every level the configuration accepts selects no systems at all. */
  lemma EveryLevelIsEmpty(level: string)
    requires IsValidLevel(level)
    ensures SystemsForLevel(level) == Some([])
  {
  }

  /** Text without an 'l' is left alone. */
  lemma {:induction false} GsubWithoutL(s: string)
    requires forall i :: 0 <= i < |s| ==> s[i] != 'l'
    ensures GsubLevel(s) == s
    decreases |s|
  {
    if s != [] {
      if |s| >= 5 {
        assert s[..5][0] == s[0];
      }
      GsubWithoutL(s[1..]);
      assert [s[0]] + s[1..] == s;
    }
  }

  /** A leading "level", with or without one separator, is dropped before
      text that has no 'l' and, without a separator, does not start with
      one. */
  lemma GsubLeading(sep: string, x: string)
    requires sep == "" || sep == "-" || sep == "_"
    requires forall i :: 0 <= i < |x| ==> x[i] != 'l'
    requires sep == "" && x != [] ==> x[0] != '-' && x[0] != '_'
    ensures GsubLevel("level" + sep + x) == x
  {
    var s := "level" + sep + x;
    assert s[..5] == "level";
    assert s[5..] == sep + x;
    GsubWithoutL(x);
    if sep != "" {
      assert (sep + x)[1..] == x;
    }
  }

  /** A level key is one digit from 1 to 5. */
  lemma KeyIsDigit(key: string)
    requires key in LevelKeys
    ensures |key| == 1 && '1' <= key[0] <= '5'
  {
  }

  /** "level", "level-" or "level_" in front of a key, in any letter case,
      selects the same list as the bare key, and the bare key is valid. */
  lemma LevelPrefixIgnored(prefix: string, key: string)
    requires Lower(prefix) == "level" || Lower(prefix) == "level-" || Lower(prefix) == "level_"
    requires key in LevelKeys
    ensures Normalize(prefix + key) == key
    ensures IsValidLevel(prefix + key) && IsValidLevel(key)
  {
    KeyIsDigit(key);
    LowerOfLowercase(key);
    LowerAppend(prefix, key);
    var sep := Lower(prefix)[5..];
    assert Lower(prefix) == "level" + sep;
    GsubLeading(sep, key);
    assert Lower(prefix + key) == "level" + sep + key;
    GsubWithoutL(key);
  }

  /** The spellings the usage text offers, "level" without a separator and
      upper-case forms are all accepted, for every key. */
  lemma LevelSpellings(key: string)
    requires key in LevelKeys
    ensures IsValidLevel(key) && IsValidLevel("level" + key) && IsValidLevel("level-" + key)
    ensures IsValidLevel("LEVEL_" + key) && IsValidLevel("Level" + key)
  {
    LevelPrefixIgnored("level", key);
    LevelPrefixIgnored("level-", key);
    CapitalPrefixes();
    LevelPrefixIgnored("LEVEL_", key);
    LevelPrefixIgnored("Level", key);
  }

  /** The capitalised prefixes lower-case to "level_" and "level". */
  lemma CapitalPrefixes()
    ensures Lower("LEVEL_") == "level_" && Lower("Level") == "level"
  {
  }
}
