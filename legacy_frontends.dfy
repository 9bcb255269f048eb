/** The frontends of the earlier Ruby version. Each frontend class keeps the
    root it was created with (ES-DE two directories, ROCKNIX a remote host)
    and builds its directories by string interpolation, without any path
    normalisation. */
module LegacyFrontends {
  import opened Systems
  import opened Wrappers
  import opened Strings
  import opened SourceConfigs

  /** One constructor per frontend class, holding its instance variables. */
  datatype Frontend =
    | Batocera(rootDir: string)
    | Knulli(rootDir: string)
    | EmuDeck(rootDir: string)
    | Esde(biosDir: string, romsDir: string)
    | MinUI(rootDir: string)
    | MuOS(rootDir: string)
    | Rocknix(remoteHostname: string)
    | Onion(rootDir: string)
    | Spruce(rootDir: string)

  /** The `ROOT_DIR` (and ES-DE, ROCKNIX) defaults of the constructors. */
  const BatoceraRootDir: string := "/Volumes/KNULLI_SD2 1"
  const EmuDeckRootDir: string := "/run/media/SDCARDNAME/"
  const EsdeBiosDir: string := "/Volumes/Android_Emu/BIOS"
  const EsdeRomsDir: string := "/Volumes/Android_Emu/ROMs"
  const MinUIRootDir: string := "/Volumes/TUI_BRICK"
  const MuOSRootDir: string := "/Volumes/MUOS_SD2"
  const RocknixRemoteHostname: string := "root@retroid-pocket-5"
  const OnionRootDir: string := "/Volumes/ONION"
  const SpruceRootDir: string := "/Volumes/SPRUCE"

  function Name(f: Frontend): string {
    match f
    case Batocera(_) => "Batocera"
    case Knulli(_) => "Knulli"
    case EmuDeck(_) => "EmuDeck"
    case Esde(_, _) => "ES-DE"
    case MinUI(_) => "MinUI"
    case MuOS(_) => "MuOS"
    case Rocknix(_) => "ROCKNIX"
    case Onion(_) => "Onion"
    case Spruce(_) => "Spruce"
  }

  /** `Batocera::ROMS_SUBDIRS[s]` (old/copy_bios_rom_files.rb:170-215). */
  function BatoceraRoms(s: System): Option<string> {
    match s
    case ArcadeFinalburnneo => Some("fbneo")
    case ArcadeMame2003plus => Some("mame")
    case Atari2600 => Some("atari2600")
    case Atari5200 => Some("atari5200")
    case Atari7800 => Some("atari7800")
    case AtariJaguar => Some("jaguar")
    case AtariLynx => Some("lynx")
    case CbsColecovision => Some("colecovision")
    case Commodore64 => Some("c64")
    case MicrosoftXbox => Some("xbox")
    case MicrosoftXbox360 => Some("xbox360")
    case NecSupergrafx => Some("supergrafx")
    case NecTurbografxCd => Some("pcenginecd")
    case NecTurbografx16 => Some("pcengine")
    case Nintendo3ds => Some("n3ds")
    case NintendoDs => Some("nds")
    case NintendoFamicomDiskSystem => Some("fds")
    case NintendoGameBoy => Some("gb")
    case NintendoGameBoyAdvance => Some("gba")
    case NintendoGameBoyColor => Some("gbc")
    case NintendoGamecube => Some("gamecube")
    case Nintendo64 => Some("n64")
    case NintendoNes => Some("nes")
    case NintendoPokemonMini => Some("pokemini")
    case NintendoSuperGameBoy => Some("sgb")
    case NintendoSnes => Some("snes")
    case NintendoSwitch => Some("switch")
    case NintendoWii => Some("wii")
    case NintendoWiiu => Some("wiiu")
    case Pico8 => Some("pico8")
    case SegaDreamcast => Some("dreamcast")
    case SegaGameGear => Some("gamegear")
    case SegaGenesis => Some("megadrive")
    case SegaMasterSystem => Some("mastersystem")
    case Sega32x => Some("sega32x")
    case SegaCd => Some("segacd")
    case SegaSaturn => Some("saturn")
    case SegaSg1000 => Some("sg1000")
    case SnkNeoGeo => Some("neogeo")
    case SnkNeoGeoCd => Some("neogeocd")
    case SnkNeoGeoPocket => Some("ngp")
    case SnkNeoGeoPocketColor => Some("ngpc")
    case SonyPlaystation => Some("psx")
    case SonyPlaystation2 => Some("ps2")
    case SonyPlaystationPortable => Some("psp")
    case SonyPlaystationVita => Some("psvita")
    case _ => None
  }

  /** `EmuDeck::ROMS_SUBDIRS[s]` (old/copy_bios_rom_files.rb:258-298). */
  function EmuDeckRoms(s: System): Option<string> {
    match s
    case ArcadeMame2003plus => Some("arcade")
    case Atari2600 => Some("atari2600")
    case Atari5200 => Some("atari5200")
    case Atari7800 => Some("atari7800")
    case AtariJaguar => Some("atarijaguar")
    case AtariLynx => Some("atarilynx")
    case CbsColecovision => Some("colecovision")
    case Commodore64 => Some("c64")
    case NecTurbografxCd => Some("tg-cd")
    case NecTurbografx16 => Some("tg16")
    case Nintendo3ds => Some("n3ds")
    case NintendoDs => Some("nds")
    case NintendoFamicomDiskSystem => Some("famicom")
    case NintendoGameBoy => Some("gb")
    case NintendoGameBoyAdvance => Some("gba")
    case NintendoGameBoyColor => Some("gbc")
    case NintendoGamecube => Some("gamecube")
    case Nintendo64 => Some("n64")
    case NintendoNes => Some("nes")
    case NintendoPokemonMini => Some("pokemini")
    case NintendoSnes => Some("snes")
    case NintendoSwitch => Some("switch")
    case NintendoWii => Some("wii")
    case NintendoWiiu => Some("wiiu/roms")
    case Pico8 => Some("pico8")
    case SegaDreamcast => Some("dreamcast")
    case SegaGameGear => Some("gamegear")
    case SegaGenesis => Some("genesis")
    case SegaMasterSystem => Some("mastersystem")
    case Sega32x => Some("sega32x")
    case SegaCd => Some("segacd")
    case SegaSaturn => Some("saturn")
    case SegaSg1000 => Some("sg-1000")
    case SnkNeoGeo => Some("neogeo")
    case SnkNeoGeoCd => Some("neogeocd")
    case SnkNeoGeoPocket => Some("ngp")
    case SnkNeoGeoPocketColor => Some("ngpc")
    case SonyPlaystation => Some("psx")
    case SonyPlaystation2 => Some("ps2")
    case SonyPlaystationPortable => Some("psp")
    case SonyPlaystationVita => Some("psvita")
    case _ => None
  }

  /** `Esde::ROMS_SUBDIRS[s]` (old/copy_bios_rom_files.rb:335-376). */
  function EsDeRoms(s: System): Option<string> {
    match s
    case ArcadeFinalburnneo => Some("fbneo")
    case ArcadeMame2003plus => Some("arcade")
    case Atari2600 => Some("atari2600")
    case Atari5200 => Some("atari5200")
    case Atari7800 => Some("atari7800")
    case AtariJaguar => Some("atarijaguar")
    case AtariLynx => Some("atarilynx")
    case CbsColecovision => Some("colecovision")
    case Commodore64 => Some("c64")
    case NecTurbografxCd => Some("tg-cd")
    case NecTurbografx16 => Some("tg16")
    case Nintendo3ds => Some("n3ds")
    case NintendoDs => Some("nds")
    case NintendoFamicomDiskSystem => Some("famicom")
    case NintendoGameBoy => Some("gb")
    case NintendoGameBoyAdvance => Some("gba")
    case NintendoGameBoyColor => Some("gbc")
    case NintendoGamecube => Some("gamecube")
    case Nintendo64 => Some("n64")
    case NintendoNes => Some("nes")
    case NintendoPokemonMini => Some("pokemini")
    case NintendoSnes => Some("snes")
    case NintendoSwitch => Some("switch")
    case NintendoWii => Some("wii")
    case NintendoWiiu => Some("wiiu")
    case Pico8 => Some("pico8")
    case SegaDreamcast => Some("dreamcast")
    case SegaGameGear => Some("gamegear")
    case SegaGenesis => Some("genesis")
    case SegaMasterSystem => Some("mastersystem")
    case Sega32x => Some("sega32x")
    case SegaCd => Some("segacd")
    case SegaSaturn => Some("saturn")
    case SegaSg1000 => Some("sg-1000")
    case SnkNeoGeo => Some("neogeo")
    case SnkNeoGeoCd => Some("neogeocd")
    case SnkNeoGeoPocket => Some("ngp")
    case SnkNeoGeoPocketColor => Some("ngpc")
    case SonyPlaystation => Some("psx")
    case SonyPlaystation2 => Some("ps2")
    case SonyPlaystationPortable => Some("psp")
    case SonyPlaystationVita => Some("psvita")
    case _ => None
  }

  /** `MinUI::BIOS_SUBDIRS[s]` (old/copy_bios_rom_files.rb:413-420). */
  function MinUIBios(s: System): Option<string> {
    match s
    case NecTurbografxCd => Some("PCE")
    case NintendoGameBoyAdvance => Some("GBA")
    case NintendoGameBoyColor => Some("GBC")
    case NintendoGameBoy => Some("GB")
    case NintendoPokemonMini => Some("PKM")
    case NintendoSuperGameBoy => Some("SGB")
    case SegaDreamcast => Some(".")
    case SonyPlaystation => Some("PS")
    case _ => None
  }

  /** `MinUI::ROMS_SUBDIRS[s]` (old/copy_bios_rom_files.rb:424-438). */
  function MinUIRoms(s: System): Option<string> {
    match s
    case Pico8 => Some("Pico-8 (P8)")
    case NecTurbografx16 => Some("TurboGrafx-16 (PCE)")
    case NintendoGameBoy => Some("Game Boy (GB)")
    case NintendoGameBoyAdvance => Some("Game Boy Advance (GBA)")
    case NintendoGameBoyColor => Some("Game Boy Color (GBC)")
    case NintendoNes => Some("Nintendo Entertainment System (FC)")
    case NintendoPokemonMini => Some("Pok\U{E9}mon mini (PKM)")
    case NintendoSnes => Some("Super Nintendo Entertainment System (SFC)")
    case NintendoVirtualBoy => Some("Virtual Boy (VB)")
    case SegaGameGear => Some("Sega Game Gear (GG)")
    case SegaGenesis => Some("Sega Genesis (MD)")
    case SegaMasterSystem => Some("Sega Master System (SMS)")
    case SegaCd => Some("Sega CD (MD)")
    case SnkNeoGeoPocketColor => Some("Neo Geo Pocket Color (NGPC)")
    case SonyPlaystation => Some("Sony PlayStation (PS)")
    case _ => None
  }

  /** `MuOS::ROMS_SUBDIRS[s]` (old/copy_bios_rom_files.rb:477-493). */
  function MuOSRoms(s: System): Option<string> {
    match s
    case Pico8 => Some("PICO-8")
    case NecTurbografx16 => Some("NEC PC Engine")
    case NecTurbografxCd => Some("NEC PC Engine CD")
    case NintendoGameBoy => Some("Nintendo Game Boy")
    case NintendoGameBoyAdvance => Some("Nintendo Game Boy Advance")
    case NintendoGameBoyColor => Some("Nintendo Game Boy Color")
    case NintendoNes => Some("Nintendo NES-Famicom")
    case NintendoSnes => Some("Nintendo SNES-SFC")
    case Sega32x => Some("Sega 32X")
    case SegaCd => Some("Sega Mega CD - Sega CD")
    case SegaGameGear => Some("Sega Game Gear")
    case SegaGenesis => Some("Sega Mega Drive - Genesis")
    case SegaMasterSystem => Some("Sega Master System")
    case SnkNeoGeo => Some("SNK Neo Geo")
    case SnkNeoGeoCd => Some("SNK Neo Geo CD")
    case SnkNeoGeoPocketColor => Some("SNK Neo Geo Pocket - Color")
    case SonyPlaystation => Some("Sony PlayStation")
    case _ => None
  }

  /** `Onion::ROMS_SUBDIRS[s]` (old/copy_bios_rom_files.rb:561-594). */
  function OnionRoms(s: System): Option<string> {
    match s
    case Atari2600 => Some("ATARI")
    case Atari5200 => Some("FIFTYTWOHUNDRED")
    case Atari7800 => Some("SEVENTYEIGHTHUNDRED")
    case AtariLynx => Some("LYNX")
    case CbsColecovision => Some("COLECO")
    case Commodore64 => Some("COMMODORE")
    case ArcadeMame2003plus => Some("ARCADE")
    case NecSupergrafx => Some("SGFX")
    case NecTurbografx16 => Some("PCE")
    case NecTurbografxCd => Some("PCECD")
    case Nintendo64 => Some("N64")
    case NintendoFamicomDiskSystem => Some("FDS")
    case NintendoDs => Some("NDS")
    case NintendoGameBoy => Some("GB")
    case NintendoGameBoyAdvance => Some("GBA")
    case NintendoGameBoyColor => Some("GBC")
    case NintendoNes => Some("FC")
    case NintendoPokemonMini => Some("POKE")
    case NintendoSuperGameBoy => Some("SGB")
    case NintendoSnes => Some("SFC")
    case Pico8 => Some("PICO8")
    case Sega32x => Some("THIRTYTWOX")
    case SegaCd => Some("SEGACD")
    case SegaDreamcast => Some("DC")
    case SegaGameGear => Some("GG")
    case SegaGenesis => Some("MD")
    case SegaMasterSystem => Some("MS")
    case SegaSg1000 => Some("SEGASGONE")
    case SnkNeoGeo => Some("NEOGEO")
    case SnkNeoGeoCd => Some("NEOCD")
    case SnkNeoGeoPocket => Some("NGP")
    case SnkNeoGeoPocketColor => Some("NGPC")
    case SonyPlaystation => Some("PS")
    case SonyPlaystationPortable => Some("PSP")
    case _ => None
  }

  /** `Spruce::ROMS_SUBDIRS[s]` (old/copy_bios_rom_files.rb:630-663). */
  function SpruceRoms(s: System): Option<string> {
    match s
    case Atari2600 => Some("ATARI")
    case Atari5200 => Some("FIFTYTWOHUNDRED")
    case Atari7800 => Some("SEVENTYEIGHTHUNDRED")
    case AtariLynx => Some("LYNX")
    case CbsColecovision => Some("COLECO")
    case Commodore64 => Some("COMMODORE")
    case ArcadeMame2003plus => Some("ARCADE_MAME2003PLUS")
    case NecSupergrafx => Some("SGFX")
    case NecTurbografx16 => Some("PCE")
    case NecTurbografxCd => Some("PCECD")
    case Nintendo64 => Some("N64")
    case NintendoFamicomDiskSystem => Some("FDS")
    case NintendoDs => Some("NDS")
    case NintendoGameBoy => Some("GB")
    case NintendoGameBoyAdvance => Some("GBA")
    case NintendoGameBoyColor => Some("GBC")
    case NintendoNes => Some("FC")
    case NintendoPokemonMini => Some("POKE")
    case NintendoSuperGameBoy => Some("SGB")
    case NintendoSnes => Some("SFC")
    case Pico8 => Some("PICO8")
    case Sega32x => Some("THIRTYTWOX")
    case SegaCd => Some("SEGACD")
    case SegaDreamcast => Some("DC")
    case SegaGameGear => Some("GG")
    case SegaGenesis => Some("MD")
    case SegaMasterSystem => Some("MS")
    case SegaSg1000 => Some("SEGASGONE")
    case SnkNeoGeo => Some("NEOGEO")
    case SnkNeoGeoCd => Some("NEOCD")
    case SnkNeoGeoPocket => Some("NGP")
    case SnkNeoGeoPocketColor => Some("NGPC")
    case SonyPlaystation => Some("PS")
    case SonyPlaystationPortable => Some("PSP")
    case _ => None
  }
  /** `roms_subdirs`: Knulli inherits Batocera's table, ROCKNIX uses ES-DE's. */
  function RomsSubdir(f: Frontend, s: System): Option<string> {
    match f
    case Batocera(_) => BatoceraRoms(s)
    case Knulli(_) => BatoceraRoms(s)
    case EmuDeck(_) => EmuDeckRoms(s)
    case Esde(_, _) => EsDeRoms(s)
    case MinUI(_) => MinUIRoms(s)
    case MuOS(_) => MuOSRoms(s)
    case Rocknix(_) => EsDeRoms(s)
    case Onion(_) => OnionRoms(s)
    case Spruce(_) => SpruceRoms(s)
  }

  /** `supported_systems`: the keys of the ROMs table (as a set; the order of
      the keys is not modelled). */
  function SupportedSystems(f: Frontend): set<System> {
    set s: System | RomsSubdir(f, s).Some?
  }

  /** The text a directory starts with: the root, ES-DE's ROMs directory, or
      ROCKNIX's "host:". */
  function Base(f: Frontend): string {
    match f
    case Esde(_, romsDir) => romsDir
    case Rocknix(host) => host + ":"
    case _ => f.rootDir
  }

  /** The directory names `roms_directory` writes between the base and the
      table entry. */
  function RomsSegments(f: Frontend): seq<string> {
    match f
    case Batocera(_) => ["roms"]
    case Knulli(_) => ["roms"]
    case EmuDeck(_) => ["Emulation", "roms"]
    case Esde(_, _) => []
    case MinUI(_) => ["Roms"]
    case MuOS(_) => ["ROMS"]
    case Rocknix(_) => ["storage", "roms"]
    case Onion(_) => ["Roms"]
    case Spruce(_) => ["Roms"]
  }

  /** The directory names of `bios_directory` after the root (ES-DE's BIOS
      directory is given whole; MinUI adds the system's own entry). */
  function BiosSegments(f: Frontend): seq<string> {
    match f
    case Batocera(_) => ["bios"]
    case Knulli(_) => ["bios"]
    case EmuDeck(_) => ["Emulation", "bios"]
    case Esde(_, _) => []
    case MinUI(_) => ["Bios"]
    case MuOS(_) => ["MUOS", "Bios"]
    case Rocknix(_) => ["storage", "roms", "bios"]
    case Onion(_) => ["BIOS"]
    case Spruce(_) => ["BIOS"]
  }

  /** What `roms_directory` writes before the table entry. */
  function RomsPrefix(f: Frontend): (r: string)
    ensures r != [] && r[|r| - 1] == '/'
  {
    match f
    case Batocera(root) => root + "/roms/"
    case Knulli(root) => root + "/roms/"
    case EmuDeck(root) => root + "/Emulation/roms/"
    case Esde(_, romsDir) => romsDir + "/"
    case MinUI(root) => root + "/Roms/"
    case MuOS(root) => root + "/ROMS/"
    case Rocknix(host) => host + ":/storage/roms/"
    case Onion(root) => root + "/Roms/"
    case Spruce(root) => root + "/Roms/"
  }

  /** Text after a slash-terminated prefix ends with that slash and itself. */
  lemma AfterSlash(prefix: string, x: string)
    requires prefix != [] && prefix[|prefix| - 1] == '/'
    ensures EndsWith(prefix + x, "/" + x)
  {
    assert (prefix + x)[|prefix| - 1..] == "/" + x;
  }

  /** `roms_directory`: nothing for a system missing from the ROMs table,
      otherwise the interpolated directory, which ends with "/" and the
      entry. */
  function RomsDirectory(f: Frontend, s: System): (r: Option<string>)
    ensures r.Some? <==> s in SupportedSystems(f)
    ensures r.Some? ==> EndsWith(r.value, "/" + RomsSubdir(f, s).value)
  {
    var subdir := RomsSubdir(f, s);
    if subdir.None? then None
    else
      AfterSlash(RomsPrefix(f), subdir.value);
      Some(RomsPrefix(f) + subdir.value)
  }

  /** MinUI's `bios_directory`: the system's entry under "Bios", and none
      for a system missing from the BIOS table. */
  function MinUIBiosDirectory(root: string, s: System): (r: Option<string>)
    ensures r.None? <==> MinUIBios(s).None?
  {
    var subdir := MinUIBios(s);
    if subdir.None? then None else Some(root + "/Bios/" + subdir.value)
  }

  /** `bios_directory`: one directory for all systems, except MinUI, which
      has one per system in its BIOS table and none for the others. */
  function BiosDirectory(f: Frontend, s: System): (r: Option<string>)
    ensures r.None? ==> f.MinUI?
    ensures !f.MinUI? ==> r == Some(SharedBiosDirectory(f))
  {
    match f
    case MinUI(root) => MinUIBiosDirectory(root, s)
    case _ => Some(SharedBiosDirectory(f))
  }

  /** The one BIOS directory of a frontend other than MinUI, whatever the
      system. */
  function SharedBiosDirectory(f: Frontend): string
    requires !f.MinUI?
  {
    match f
    case Batocera(root) => root + "/bios"
    case Knulli(root) => root + "/bios"
    case EmuDeck(root) => root + "/Emulation/bios"
    case Esde(biosDir, _) => biosDir
    case MuOS(root) => root + "/MUOS/Bios"
    case Rocknix(host) => host + ":/storage/roms/bios"
    case Onion(root) => root + "/BIOS"
    case Spruce(root) => root + "/BIOS"
  }

  /** The base and one directory name, written out. */
  lemma OneName(base: string, name: string, written: string)
    requires written == "/" + name
    ensures base + written == base + "/" + JoinWith([name], "/")
  {
  }

  /** The base and two directory names, written out. */
  lemma TwoNames(base: string, first: string, second: string, written: string)
    requires written == "/" + first + "/" + second
    ensures base + written == base + "/" + JoinWith([first, second], "/")
  {
    assert [first, second][1..] == [second];
  }

  /** The base and three directory names, written out. */
  lemma ThreeNames(base: string, first: string, second: string, third: string, written: string)
    requires written == "/" + first + "/" + second + "/" + third
    ensures base + written == base + "/" + JoinWith([first, second, third], "/")
  {
    assert [first, second, third][1..] == [second, third];
    assert [second, third][1..] == [third];
    assert JoinWith([second, third], "/") == second + "/" + third;
    assert JoinWith([first, second, third], "/") == first + "/" + (second + "/" + third);
  }

  /** The base, one directory name and a slash, written out. */
  lemma OneSegment(base: string, seg: string, written: string)
    requires written == "/" + seg + "/"
    ensures base + written == base + "/" + JoinWith([seg], "/") + "/"
  {
  }

  /** The base, two directory names and a slash, written out. */
  lemma TwoSegments(base: string, first: string, second: string, written: string)
    requires written == "/" + first + "/" + second + "/"
    ensures base + written == base + "/" + JoinWith([first, second], "/") + "/"
  {
    assert [first, second][1..] == [second];
  }

  /** The ROMs prefix is the base, then the frontend's directory names,
      each followed by one slash. */
  lemma RomsPrefixSegments(f: Frontend)
    ensures RomsSegments(f) == [] ==> RomsPrefix(f) == Base(f) + "/"
    ensures RomsSegments(f) != [] ==> RomsPrefix(f) == Base(f) + "/" + JoinWith(RomsSegments(f), "/") + "/"
  {
    match f
    case EmuDeck(root) => TwoSegments(root, "Emulation", "roms", "/Emulation/roms/");
    case Rocknix(host) =>
      TwoSegments(host + ":", "storage", "roms", "/storage/roms/");
      assert host + ":/storage/roms/" == host + ":" + "/storage/roms/";
    case Esde(_, _) =>
    case Batocera(root) => OneSegment(root, "roms", "/roms/");
    case Knulli(root) => OneSegment(root, "roms", "/roms/");
    case MinUI(root) => OneSegment(root, "Roms", "/Roms/");
    case MuOS(root) => OneSegment(root, "ROMS", "/ROMS/");
    case Onion(root) => OneSegment(root, "Roms", "/Roms/");
    case Spruce(root) => OneSegment(root, "Roms", "/Roms/");
  }

  /** The ROMs prefix followed by an entry is the base, then the frontend's
      directory names and the entry, each after one slash. */
  lemma RomsPrefixLayout(f: Frontend, sub: string)
    ensures RomsPrefix(f) + sub == Base(f) + "/" + JoinWith(RomsSegments(f) + [sub], "/")
  {
    RomsPrefixSegments(f);
    var segs := RomsSegments(f);
    if segs == [] {
      assert segs + [sub] == [sub];
    } else {
      JoinWithSnoc(segs, sub, "/");
    }
  }

  /** Every ROMs directory is the base, then the frontend's directory names
      and the table entry, each after one slash. */
  lemma RomsDirectoryLayout(f: Frontend, s: System)
    ensures RomsDirectory(f, s).Some? ==>
      RomsDirectory(f, s).value == Base(f) + "/" + JoinWith(RomsSegments(f) + [RomsSubdir(f, s).value], "/")
  {
    if RomsDirectory(f, s).Some? {
      RomsPrefixLayout(f, RomsSubdir(f, s).value);
    }
  }

  /** The BIOS directory of a frontend other than ES-DE and MinUI: the base,
      then the frontend's directory names, each after one slash. */
  lemma BiosDirectoryLayout(f: Frontend)
    requires !f.Esde? && !f.MinUI?
    ensures SharedBiosDirectory(f) == Base(f) + "/" + JoinWith(BiosSegments(f), "/")
  {
    if f.EmuDeck? || f.MuOS? {
      TwoNamesBiosLayout(f);
    } else if f.Rocknix? {
      RocknixBiosLayout(f.remoteHostname);
    } else {
      OneNameBiosLayout(f);
    }
  }

  lemma OneNameBiosLayout(f: Frontend)
    requires f.Batocera? || f.Knulli? || f.Onion? || f.Spruce?
    ensures SharedBiosDirectory(f) == Base(f) + "/" + JoinWith(BiosSegments(f), "/")
  {
    var name := if f.Batocera? || f.Knulli? then "bios" else "BIOS";
    assert Base(f) == f.rootDir && BiosSegments(f) == [name];
    assert SharedBiosDirectory(f) == f.rootDir + "/" + name;
    OneName(f.rootDir, name, "/" + name);
  }

  lemma TwoNamesBiosLayout(f: Frontend)
    requires f.EmuDeck? || f.MuOS?
    ensures SharedBiosDirectory(f) == Base(f) + "/" + JoinWith(BiosSegments(f), "/")
  {
    if f.EmuDeck? {
      assert Base(f) == f.rootDir && BiosSegments(f) == ["Emulation", "bios"];
      TwoNames(f.rootDir, "Emulation", "bios", "/Emulation/bios");
    } else {
      assert Base(f) == f.rootDir && BiosSegments(f) == ["MUOS", "Bios"];
      TwoNames(f.rootDir, "MUOS", "Bios", "/MUOS/Bios");
    }
  }

  lemma RocknixBiosLayout(host: string)
    ensures SharedBiosDirectory(Rocknix(host)) == Base(Rocknix(host)) + "/" + JoinWith(BiosSegments(Rocknix(host)), "/")
  {
    ThreeNames(host + ":", "storage", "roms", "bios", "/storage/roms/bios");
    assert host + ":/storage/roms/bios" == host + ":" + "/storage/roms/bios";
  }

  /** MinUI's BIOS directory for a system in its BIOS table is the root, then
      "Bios" and the entry, each after one slash. */
  lemma MinUIBiosDirectoryLayout(root: string, s: System)
    ensures BiosDirectory(MinUI(root), s).Some? ==>
      BiosDirectory(MinUI(root), s).value == root + "/" + JoinWith(["Bios", MinUIBios(s).value], "/")
  {
    if MinUIBios(s).Some? {
      var segs := ["Bios", MinUIBios(s).value];
      assert segs[1..] == [MinUIBios(s).value];
    }
  }

  /** Knulli is Batocera under another name. */
  lemma KnulliIsBatocera(root: string, s: System)
    ensures BiosDirectory(Knulli(root), s) == BiosDirectory(Batocera(root), s)
    ensures RomsDirectory(Knulli(root), s) == RomsDirectory(Batocera(root), s)
    ensures SupportedSystems(Knulli(root)) == SupportedSystems(Batocera(root))
    ensures Name(Knulli(root)) != Name(Batocera(root))
  {
  }

  /** ROCKNIX supports exactly the ES-DE systems. */
  lemma RocknixSupportsEsdeSystems(host: string, biosDir: string, romsDir: string)
    ensures SupportedSystems(Rocknix(host)) == SupportedSystems(Esde(biosDir, romsDir))
  {
    forall s
      ensures s in SupportedSystems(Rocknix(host)) <==> s in SupportedSystems(Esde(biosDir, romsDir))
    {
      assert RomsSubdir(Rocknix(host), s) == RomsSubdir(Esde(biosDir, romsDir), s);
    }
  }

  /** A plain host name followed by text starting with ':' is remote. */
  lemma RemoteAfterPlainHost(host: string, rest: string)
    requires forall i :: 0 <= i < |host| ==> host[i] != ':' && host[i] != '/'
    requires rest != [] && rest[0] == ':'
    ensures NamesRemoteHost(host + rest)
  {
    NamesRemoteHostAfterHost(host, rest[1..]);
    assert host + ":" + rest[1..] == host + rest;
  }

  /** Every ROCKNIX ROMs directory a host name and an entry make is remote. */
  lemma RocknixEntryIsRemote(host: string, sub: string)
    requires forall i :: 0 <= i < |host| ==> host[i] != ':' && host[i] != '/'
    ensures NamesRemoteHost(RomsPrefix(Rocknix(host)) + sub)
  {
    RemoteAfterPlainHost(host, ":/storage/roms/" + sub);
    assert host + ":/storage/roms/" + sub == host + (":/storage/roms/" + sub);
  }

  /** The default ROCKNIX host has neither ':' nor '/'. */
  lemma DefaultRocknixHostIsPlain()
    ensures forall i :: 0 <= i < |RocknixRemoteHostname| ==>
      RocknixRemoteHostname[i] != ':' && RocknixRemoteHostname[i] != '/'
  {
  }

  /** For a host name without ':' or '/', rsync reads every ROCKNIX
      directory as one on that host. */
  lemma RocknixIsRemote(host: string, s: System)
    requires forall i :: 0 <= i < |host| ==> host[i] != ':' && host[i] != '/'
    ensures NamesRemoteHost(BiosDirectory(Rocknix(host), s).value)
    ensures RomsDirectory(Rocknix(host), s).Some? ==> NamesRemoteHost(RomsDirectory(Rocknix(host), s).value)
  {
    RemoteAfterPlainHost(host, ":/storage/roms/bios");
    var r := RomsDirectory(Rocknix(host), s);
    if r.Some? {
      var sub := RomsSubdir(Rocknix(host), s).value;
      assert r.value == RomsPrefix(Rocknix(host)) + sub;
      RocknixEntryIsRemote(host, sub);
    }
  }
}
