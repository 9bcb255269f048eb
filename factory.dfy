/** `FrontendFactory` of the current version: a case-insensitive lookup from
    a frontend name to a frontend rooted at the given directory. */
module Factory {
  import opened Wrappers
  import opened Strings
  import opened Frontends

  /** `available_frontends()`: the keys of `_FRONTENDS`, in order. */
  const FrontendKeys: seq<string> :=
    ["batocera", "knulli", "emudeck", "esde", "minui", "muos", "rocknix", "onion", "spruce"]

  /** `_FRONTENDS.get(key)` applied to the destination directory. */
  function Lookup(key: string, destinationDir: string): Option<Frontend> {
    if key == "batocera" then Some(Batocera(destinationDir))
    else if key == "knulli" then Some(Knulli(destinationDir))
    else if key == "emudeck" then Some(EmuDeck(destinationDir))
    else if key == "esde" then Some(EsDe(destinationDir))
    else if key == "minui" then Some(MinUI(destinationDir))
    else if key == "muos" then Some(MuOS(destinationDir))
    else if key == "rocknix" then Some(Rocknix(destinationDir))
    else if key == "onion" then Some(Onion(destinationDir))
    else if key == "spruce" then Some(Spruce(destinationDir))
    else None
  }

  /** `create`: the lowercased name is looked up; an unknown name gives
      nothing, a known one a frontend rooted at `destinationDir`. */
  function Create(name: string, destinationDir: string): (r: Option<Frontend>)
    ensures r.Some? <==> Lower(name) in FrontendKeys
    ensures r.Some? ==> Key(r.value) == Lower(name) && r.value.destinationDir == destinationDir
  {
    Lookup(Lower(name), destinationDir)
  }

  /** The factory key of each frontend. */
  function Key(f: Frontend): string {
    match f
    case Batocera(_) => "batocera"
    case Knulli(_) => "knulli"
    case EmuDeck(_) => "emudeck"
    case EsDe(_) => "esde"
    case MinUI(_) => "minui"
    case MuOS(_) => "muos"
    case Rocknix(_) => "rocknix"
    case Onion(_) => "onion"
    case Spruce(_) => "spruce"
  }

  /** Each key is already in lower case. */
  lemma KeyIsLowercase(f: Frontend)
    ensures Lower(Key(f)) == Key(f)
  {
    match f
    case Batocera(_) => LowerOfLowercase("batocera");
    case Knulli(_) => LowerOfLowercase("knulli");
    case EmuDeck(_) => LowerOfLowercase("emudeck");
    case EsDe(_) => LowerOfLowercase("esde");
    case MinUI(_) => LowerOfLowercase("minui");
    case MuOS(_) => LowerOfLowercase("muos");
    case Rocknix(_) => LowerOfLowercase("rocknix");
    case Onion(_) => LowerOfLowercase("onion");
    case Spruce(_) => LowerOfLowercase("spruce");
  }

  /** Every frontend is created back from its key and its root, and its key is
      one of the available names. */
  lemma CreateKeyRoundTrip(f: Frontend)
    ensures Key(f) in FrontendKeys
    ensures Create(Key(f), f.destinationDir) == Some(f)
  {
    KeyIsLowercase(f);
    assert Lookup(Key(f), f.destinationDir) == Some(f);
  }

  /** Every available name creates a frontend with that key. */
  lemma AvailableNamesCreate(i: nat, destinationDir: string)
    requires i < |FrontendKeys|
    ensures Create(FrontendKeys[i], destinationDir).Some?
    ensures Key(Create(FrontendKeys[i], destinationDir).value) == FrontendKeys[i]
  {
    var d := destinationDir;
    var f :=
      if i == 0 then Batocera(d) else if i == 1 then Knulli(d) else if i == 2 then EmuDeck(d)
      else if i == 3 then EsDe(d) else if i == 4 then MinUI(d) else if i == 5 then MuOS(d)
      else if i == 6 then Rocknix(d) else if i == 7 then Onion(d) else Spruce(d);
    assert Key(f) == FrontendKeys[i];
    CreateKeyRoundTrip(f);
  }

  /** Names that agree up to letter case create the same frontend. */
  lemma CreateCaseInsensitive(a: string, b: string, destinationDir: string)
    requires Lower(a) == Lower(b)
    ensures Create(a, destinationDir) == Create(b, destinationDir)
  {
  }

  /** Upper-case spellings of a key are accepted. */
  lemma CreateUpperCase(destinationDir: string)
    ensures Create("ROCKNIX", destinationDir) == Some(Rocknix(destinationDir))
    ensures Create("EsDe", destinationDir) == Some(EsDe(destinationDir))
  {
    assert Lower("ROCKNIX") == "rocknix";
    assert Lower("EsDe") == "esde";
  }
}
