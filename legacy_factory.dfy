/** `FrontendFactory` of the earlier Ruby version: a case-insensitive lookup
    from a frontend name to a frontend created with its default roots. */
module LegacyFactory {
  import opened Wrappers
  import opened Strings
  import opened LegacyFrontends

  /** `available_frontends`: the keys of `FRONTENDS`, in order. */
  const FrontendKeys: seq<string> :=
    ["batocera", "knulli", "emudeck", "esde", "minui", "muos", "rocknix", "onion", "spruce"]

  /** `FRONTENDS[key].new`, each class with its constructor's defaults. */
  function Lookup(key: string): Option<Frontend> {
    if key == "batocera" then Some(Batocera(BatoceraRootDir))
    else if key == "knulli" then Some(Knulli(BatoceraRootDir))
    else if key == "emudeck" then Some(EmuDeck(EmuDeckRootDir))
    else if key == "esde" then Some(Esde(EsdeBiosDir, EsdeRomsDir))
    else if key == "minui" then Some(MinUI(MinUIRootDir))
    else if key == "muos" then Some(MuOS(MuOSRootDir))
    else if key == "rocknix" then Some(Rocknix(RocknixRemoteHostname))
    else if key == "onion" then Some(Onion(OnionRootDir))
    else if key == "spruce" then Some(Spruce(SpruceRootDir))
    else None
  }

  /** The factory key of each frontend. */
  function Key(f: Frontend): string {
    match f
    case Batocera(_) => "batocera"
    case Knulli(_) => "knulli"
    case EmuDeck(_) => "emudeck"
    case Esde(_, _) => "esde"
    case MinUI(_) => "minui"
    case MuOS(_) => "muos"
    case Rocknix(_) => "rocknix"
    case Onion(_) => "onion"
    case Spruce(_) => "spruce"
  }

  /** The frontend of that kind as its constructor builds it without
      arguments. */
  function Default(f: Frontend): Frontend {
    match f
    case Batocera(_) => Batocera(BatoceraRootDir)
    case Knulli(_) => Knulli(BatoceraRootDir)
    case EmuDeck(_) => EmuDeck(EmuDeckRootDir)
    case Esde(_, _) => Esde(EsdeBiosDir, EsdeRomsDir)
    case MinUI(_) => MinUI(MinUIRootDir)
    case MuOS(_) => MuOS(MuOSRootDir)
    case Rocknix(_) => Rocknix(RocknixRemoteHostname)
    case Onion(_) => Onion(OnionRootDir)
    case Spruce(_) => Spruce(SpruceRootDir)
  }

  /** `create`: an unknown name gives nothing; a known one, in any letter
      case, the default frontend whose key is the lowercased name. */
  function Create(name: string): (r: Option<Frontend>)
    ensures r.Some? <==> Lower(name) in FrontendKeys
    ensures r.Some? ==> Key(r.value) == Lower(name) && r.value == Default(r.value)
  {
    Lookup(Lower(name))
  }

  /** Each key is already in lower case. */
  lemma KeyIsLowercase(f: Frontend)
    ensures Lower(Key(f)) == Key(f)
  {
    LowerOfLowercase(Key(f));
  }

  /** Every frontend's key creates its default instance, and the key is one
      of the available names. */
  lemma CreateKeyRoundTrip(f: Frontend)
    ensures Key(f) in FrontendKeys
    ensures Create(Key(f)) == Some(Default(f))
  {
    KeyIsLowercase(f);
  }

  /** Names that agree up to letter case create the same frontend. */
  lemma CreateCaseInsensitive(a: string, b: string)
    requires Lower(a) == Lower(b)
    ensures Create(a) == Create(b)
  {
  }
}
