/** The frontends of the current version: for each one, where BIOS files and
    each system's ROMs go under the destination root, and which systems it
    supports. Every frontend is a value (a destination root and a kind); its
    directories are pure functions of the root, the system and a fixed table. */
module Frontends {
  import opened Systems
  import opened Wrappers
  import opened Strings
  import opened Paths

  /** One constructor per `Frontend` subclass, holding `_destination_dir`. */
  datatype Frontend =
    | Batocera(destinationDir: string)
    | Knulli(destinationDir: string)
    | EmuDeck(destinationDir: string)
    | EsDe(destinationDir: string)
    | MinUI(destinationDir: string)
    | MuOS(destinationDir: string)
    | Rocknix(destinationDir: string)
    | Onion(destinationDir: string)
    | Spruce(destinationDir: string)

  function Name(f: Frontend): string {
    match f
    case Batocera(_) => "Batocera"
    case Knulli(_) => "Knulli"
    case EmuDeck(_) => "EmuDeck"
    case EsDe(_) => "ES-DE"
    case MinUI(_) => "MinUI"
    case MuOS(_) => "MuOS"
    case Rocknix(_) => "ROCKNIX"
    case Onion(_) => "Onion"
    case Spruce(_) => "Spruce"
  }

  /** `Batocera.ROMS_SUBDIRS.get(s)` (copy_bios_rom_files.py:166-211). */
  function BatoceraRoms(s: System): Option<string> {
    match s
    case ArcadeFinalburnneo => Some("fbneo")
    case ArcadeMame2003plus => Some("mame")
    case Atari2600 => Some("atari2600")
    case Atari5200 => Some("atari5200")
    case Atari7800 => Some("atari7800")
    case AtariJaguar => Some("jaguar")
    case AtariLynx => Some("lynx")
    case CbsColecovision => Some("colecovision")
    case Commodore64 => Some("c64")
    case MicrosoftXbox => Some("xbox")
    case MicrosoftXbox360 => Some("xbox360")
    case NecSupergrafx => Some("supergrafx")
    case NecTurbografxCd => Some("pcenginecd")
    case NecTurbografx16 => Some("pcengine")
    case Nintendo3ds => Some("3ds")
    case NintendoDs => Some("nds")
    case NintendoFamicomDiskSystem => Some("fds")
    case NintendoGameBoy => Some("gb")
    case NintendoGameBoyAdvance => Some("gba")
    case NintendoGameBoyColor => Some("gbc")
    case NintendoGamecube => Some("gamecube")
    case Nintendo64 => Some("n64")
    case NintendoNes => Some("nes")
    case NintendoPokemonMini => Some("pokemini")
    case NintendoSuperGameBoy => Some("sgb")
    case NintendoSnes => Some("snes")
    case NintendoSwitch => Some("switch")
    case NintendoWii => Some("wii")
    case NintendoWiiu => Some("wiiu")
    case Pico8 => Some("pico8")
    case SegaDreamcast => Some("dreamcast")
    case SegaGameGear => Some("gamegear")
    case SegaGenesis => Some("megadrive")
    case SegaMasterSystem => Some("mastersystem")
    case Sega32x => Some("sega32x")
    case SegaCd => Some("segacd")
    case SegaSaturn => Some("saturn")
    case SegaSg1000 => Some("sg1000")
    case SnkNeoGeo => Some("neogeo")
    case SnkNeoGeoCd => Some("neogeocd")
    case SnkNeoGeoPocket => Some("ngp")
    case SnkNeoGeoPocketColor => Some("ngpc")
    case SonyPlaystation => Some("psx")
    case SonyPlaystation2 => Some("ps2")
    case SonyPlaystationPortable => Some("psp")
    case SonyPlaystationVita => Some("psvita")
    case _ => None
  }

  /** `EmuDeck.ROMS_SUBDIRS.get(s)` (copy_bios_rom_files.py:247-287). */
  function EmuDeckRoms(s: System): Option<string> {
    match s
    case ArcadeMame2003plus => Some("arcade")
    case Atari2600 => Some("atari2600")
    case Atari5200 => Some("atari5200")
    case Atari7800 => Some("atari7800")
    case AtariJaguar => Some("atarijaguar")
    case AtariLynx => Some("atarilynx")
    case CbsColecovision => Some("colecovision")
    case Commodore64 => Some("c64")
    case NecTurbografxCd => Some("tg-cd")
    case NecTurbografx16 => Some("tg16")
    case Nintendo3ds => Some("n3ds")
    case NintendoDs => Some("nds")
    case NintendoFamicomDiskSystem => Some("famicom")
    case NintendoGameBoy => Some("gb")
    case NintendoGameBoyAdvance => Some("gba")
    case NintendoGameBoyColor => Some("gbc")
    case NintendoGamecube => Some("gamecube")
    case Nintendo64 => Some("n64")
    case NintendoNes => Some("nes")
    case NintendoPokemonMini => Some("pokemini")
    case NintendoSnes => Some("snes")
    case NintendoSwitch => Some("switch")
    case NintendoWii => Some("wii")
    case NintendoWiiu => Some("wiiu/roms")
    case Pico8 => Some("pico8")
    case SegaDreamcast => Some("dreamcast")
    case SegaGameGear => Some("gamegear")
    case SegaGenesis => Some("genesis")
    case SegaMasterSystem => Some("mastersystem")
    case Sega32x => Some("sega32x")
    case SegaCd => Some("segacd")
    case SegaSaturn => Some("saturn")
    case SegaSg1000 => Some("sg-1000")
    case SnkNeoGeo => Some("neogeo")
    case SnkNeoGeoCd => Some("neogeocd")
    case SnkNeoGeoPocket => Some("ngp")
    case SnkNeoGeoPocketColor => Some("ngpc")
    case SonyPlaystation => Some("psx")
    case SonyPlaystation2 => Some("ps2")
    case SonyPlaystationPortable => Some("psp")
    case SonyPlaystationVita => Some("psvita")
    case _ => None
  }

  /** `EsDe.ROMS_SUBDIRS.get(s)` (copy_bios_rom_files.py:315-356). */
  function EsDeRoms(s: System): Option<string> {
    match s
    case ArcadeFinalburnneo => Some("fbneo")
    case ArcadeMame2003plus => Some("arcade")
    case Atari2600 => Some("atari2600")
    case Atari5200 => Some("atari5200")
    case Atari7800 => Some("atari7800")
    case AtariJaguar => Some("atarijaguar")
    case AtariLynx => Some("atarilynx")
    case CbsColecovision => Some("colecovision")
    case Commodore64 => Some("c64")
    case NecTurbografxCd => Some("tg-cd")
    case NecTurbografx16 => Some("tg16")
    case Nintendo3ds => Some("n3ds")
    case NintendoDs => Some("nds")
    case NintendoFamicomDiskSystem => Some("fds")
    case NintendoGameBoy => Some("gb")
    case NintendoGameBoyAdvance => Some("gba")
    case NintendoGameBoyColor => Some("gbc")
    case NintendoGamecube => Some("gc")
    case Nintendo64 => Some("n64")
    case NintendoNes => Some("nes")
    case NintendoPokemonMini => Some("pokemini")
    case NintendoSnes => Some("snes")
    case NintendoSwitch => Some("switch")
    case NintendoWii => Some("wii")
    case NintendoWiiu => Some("wiiu")
    case Pico8 => Some("pico8")
    case SegaDreamcast => Some("dreamcast")
    case SegaGameGear => Some("gamegear")
    case SegaGenesis => Some("genesis")
    case SegaMasterSystem => Some("mastersystem")
    case Sega32x => Some("sega32x")
    case SegaCd => Some("segacd")
    case SegaSaturn => Some("saturn")
    case SegaSg1000 => Some("sg-1000")
    case SnkNeoGeo => Some("neogeo")
    case SnkNeoGeoCd => Some("neogeocd")
    case SnkNeoGeoPocket => Some("ngp")
    case SnkNeoGeoPocketColor => Some("ngpc")
    case SonyPlaystation => Some("psx")
    case SonyPlaystation2 => Some("ps2")
    case SonyPlaystationPortable => Some("psp")
    case SonyPlaystationVita => Some("psvita")
    case _ => None
  }

  /** `MinUI.BIOS_SUBDIRS.get(s)` (copy_bios_rom_files.py:384-391). */
  function MinUIBios(s: System): Option<string> {
    match s
    case NecTurbografxCd => Some("PCE")
    case NintendoGameBoyAdvance => Some("GBA")
    case NintendoGameBoyColor => Some("GBC")
    case NintendoGameBoy => Some("GB")
    case NintendoPokemonMini => Some("PKM")
    case NintendoSuperGameBoy => Some("SGB")
    case SegaDreamcast => Some(".")
    case SonyPlaystation => Some("PS")
    case _ => None
  }

  /** `MinUI.ROMS_SUBDIRS.get(s)` (copy_bios_rom_files.py:395-409). */
  function MinUIRoms(s: System): Option<string> {
    match s
    case Pico8 => Some("Pico-8 (P8)")
    case NecTurbografx16 => Some("TurboGrafx-16 (PCE)")
    case NintendoGameBoy => Some("Game Boy (GB)")
    case NintendoGameBoyAdvance => Some("Game Boy Advance (GBA)")
    case NintendoGameBoyColor => Some("Game Boy Color (GBC)")
    case NintendoNes => Some("Nintendo Entertainment System (FC)")
    case NintendoPokemonMini => Some("Pok\U{C3}\U{A9}mon mini (PKM)")
    case NintendoSnes => Some("Super Nintendo Entertainment System (SFC)")
    case NintendoVirtualBoy => Some("Virtual Boy (VB)")
    case SegaGameGear => Some("Sega Game Gear (GG)")
    case SegaGenesis => Some("Sega Genesis (MD)")
    case SegaMasterSystem => Some("Sega Master System (SMS)")
    case SegaCd => Some("Sega CD (MD)")
    case SnkNeoGeoPocketColor => Some("Neo Geo Pocket Color (NGPC)")
    case SonyPlaystation => Some("Sony PlayStation (PS)")
    case _ => None
  }

  /** `MuOS.ROMS_SUBDIRS.get(s)` (copy_bios_rom_files.py:440-456). */
  function MuOSRoms(s: System): Option<string> {
    match s
    case Pico8 => Some("PICO-8")
    case NecTurbografx16 => Some("NEC PC Engine")
    case NecTurbografxCd => Some("NEC PC Engine CD")
    case NintendoGameBoy => Some("Nintendo Game Boy")
    case NintendoGameBoyAdvance => Some("Nintendo Game Boy Advance")
    case NintendoGameBoyColor => Some("Nintendo Game Boy Color")
    case NintendoNes => Some("Nintendo NES-Famicom")
    case NintendoSnes => Some("Nintendo SNES-SFC")
    case Sega32x => Some("Sega 32X")
    case SegaCd => Some("Sega Mega CD - Sega CD")
    case SegaGameGear => Some("Sega Game Gear")
    case SegaGenesis => Some("Sega Mega Drive - Genesis")
    case SegaMasterSystem => Some("Sega Master System")
    case SnkNeoGeo => Some("SNK Neo Geo")
    case SnkNeoGeoCd => Some("SNK Neo Geo CD")
    case SnkNeoGeoPocketColor => Some("SNK Neo Geo Pocket - Color")
    case SonyPlaystation => Some("Sony PlayStation")
    case _ => None
  }

  /** `Onion.ROMS_SUBDIRS.get(s)` (copy_bios_rom_files.py:508-541). */
  function OnionRoms(s: System): Option<string> {
    match s
    case Atari2600 => Some("ATARI")
    case Atari5200 => Some("FIFTYTWOHUNDRED")
    case Atari7800 => Some("SEVENTYEIGHTHUNDRED")
    case AtariLynx => Some("LYNX")
    case CbsColecovision => Some("COLECO")
    case Commodore64 => Some("COMMODORE")
    case ArcadeMame2003plus => Some("ARCADE")
    case NecSupergrafx => Some("SGFX")
    case NecTurbografx16 => Some("PCE")
    case NecTurbografxCd => Some("PCECD")
    case Nintendo64 => Some("N64")
    case NintendoFamicomDiskSystem => Some("FDS")
    case NintendoDs => Some("NDS")
    case NintendoGameBoy => Some("GB")
    case NintendoGameBoyAdvance => Some("GBA")
    case NintendoGameBoyColor => Some("GBC")
    case NintendoNes => Some("FC")
    case NintendoPokemonMini => Some("POKE")
    case NintendoSuperGameBoy => Some("SGB")
    case NintendoSnes => Some("SFC")
    case Pico8 => Some("PICO")
    case Sega32x => Some("THIRTYTWOX")
    case SegaCd => Some("SEGACD")
    case SegaDreamcast => Some("DC")
    case SegaGameGear => Some("GG")
    case SegaGenesis => Some("MD")
    case SegaMasterSystem => Some("MS")
    case SegaSg1000 => Some("SEGASGONE")
    case SnkNeoGeo => Some("NEOGEO")
    case SnkNeoGeoCd => Some("NEOCD")
    case SnkNeoGeoPocket => Some("NGP")
    case SnkNeoGeoPocketColor => Some("NGPC")
    case SonyPlaystation => Some("PS")
    case SonyPlaystationPortable => Some("PSP")
    case _ => None
  }

  /** `Spruce.ROMS_SUBDIRS.get(s)` (copy_bios_rom_files.py:569-602). */
  function SpruceRoms(s: System): Option<string> {
    match s
    case Atari2600 => Some("ATARI")
    case Atari5200 => Some("FIFTYTWOHUNDRED")
    case Atari7800 => Some("SEVENTYEIGHTHUNDRED")
    case AtariLynx => Some("LYNX")
    case CbsColecovision => Some("COLECO")
    case Commodore64 => Some("COMMODORE")
    case ArcadeMame2003plus => Some("MAME2003PLUS")
    case NecSupergrafx => Some("SGFX")
    case NecTurbografx16 => Some("PCE")
    case NecTurbografxCd => Some("PCECD")
    case Nintendo64 => Some("N64")
    case NintendoFamicomDiskSystem => Some("FDS")
    case NintendoDs => Some("NDS")
    case NintendoGameBoy => Some("GB")
    case NintendoGameBoyAdvance => Some("GBA")
    case NintendoGameBoyColor => Some("GBC")
    case NintendoNes => Some("FC")
    case NintendoPokemonMini => Some("POKE")
    case NintendoSuperGameBoy => Some("SGB")
    case NintendoSnes => Some("SFC")
    case Pico8 => Some("PICO8")
    case Sega32x => Some("THIRTYTWOX")
    case SegaCd => Some("SEGACD")
    case SegaDreamcast => Some("DC")
    case SegaGameGear => Some("GG")
    case SegaGenesis => Some("MD")
    case SegaMasterSystem => Some("MS")
    case SegaSg1000 => Some("SEGASGONE")
    case SnkNeoGeo => Some("NEOGEO")
    case SnkNeoGeoCd => Some("NEOCD")
    case SnkNeoGeoPocket => Some("NGP")
    case SnkNeoGeoPocketColor => Some("NGPC")
    case SonyPlaystation => Some("PS")
    case SonyPlaystationPortable => Some("PSP")
    case _ => None
  }

  /** `_roms_subdirs.get(s)`: Knulli inherits Batocera's table and ROCKNIX
      reuses ES-DE's. */
  function RomsSubdir(f: Frontend, s: System): Option<string> {
    match f
    case Batocera(_) => BatoceraRoms(s)
    case Knulli(_) => BatoceraRoms(s)
    case EmuDeck(_) => EmuDeckRoms(s)
    case EsDe(_) => EsDeRoms(s)
    case MinUI(_) => MinUIRoms(s)
    case MuOS(_) => MuOSRoms(s)
    case Rocknix(_) => EsDeRoms(s)
    case Onion(_) => OnionRoms(s)
    case Spruce(_) => SpruceRoms(s)
  }

  /** `supported_systems`: the keys of the ROMs table (as a set; the list
      order of the source is not modelled). */
  function SupportedSystems(f: Frontend): set<System> {
    set s: System | RomsSubdir(f, s).Some?
  }

  /** The directory under which `roms_directory` puts each table entry. */
  function RomsRoot(f: Frontend): string {
    match f
    case Batocera(d) => Join(d, "roms")
    case Knulli(d) => Join(d, "roms")
    case EmuDeck(d) => Join(Join(d, "Emulation"), "roms")
    case EsDe(d) => Join(d, "ROMs")
    case MinUI(d) => Join(d, "Roms")
    case MuOS(d) => Join(d, "ROMS")
    case Rocknix(d) => d
    case Onion(d) => Join(d, "Roms")
    case Spruce(d) => Join(d, "Roms")
  }

  /** `roms_directory`: nothing for a system without a (non-empty) entry in
      the frontend's ROMs table, otherwise the entry under the ROMs root. */
  function RomsDirectory(f: Frontend, s: System): (r: Option<string>)
    ensures r.None? <==> !Present(RomsSubdir(f, s))
  {
    var entry := RomsSubdir(f, s);
    if !Present(entry) then None else Some(Join(RomsRoot(f), entry.value))
  }

  /** MinUI's `bios_directory`: the system's entry under "Bios", and none
      for a system without a (non-empty) entry. */
  function MinUIBiosDirectory(d: string, s: System): (r: Option<string>)
    ensures r.None? <==> !Present(MinUIBios(s))
  {
    var subdir := MinUIBios(s);
    if !Present(subdir) then None else Some(Join(Join(d, "Bios"), subdir.value))
  }

  /** `bios_directory`: a fixed directory under the root, except MinUI, which
      has one BIOS subdirectory per system and none for the others. */
  function BiosDirectory(f: Frontend, s: System): (r: Option<string>)
    ensures r.None? ==> f.MinUI?
    ensures !f.MinUI? ==> r == Some(SharedBiosDirectory(f))
  {
    match f
    case MinUI(d) => MinUIBiosDirectory(d, s)
    case _ => Some(SharedBiosDirectory(f))
  }

  /** The one BIOS directory of a frontend other than MinUI, whatever the
      system. */
  function SharedBiosDirectory(f: Frontend): string
    requires !f.MinUI?
  {
    match f
    case Batocera(d) => Join(d, "bios")
    case Knulli(d) => Join(d, "bios")
    case EmuDeck(d) => Join(Join(d, "Emulation"), "bios")
    case EsDe(d) => Join(d, "BIOS")
    case MuOS(d) => Join(Join(d, "MUOS"), "Bios")
    case Rocknix(d) => Join(d, "bios")
    case Onion(d) => Join(d, "BIOS")
    case Spruce(d) => Join(d, "BIOS")
  }

  /** The segments `roms_directory` puts between the root and the table entry. */
  function RomsSegments(f: Frontend): seq<string> {
    match f
    case Batocera(_) => ["roms"]
    case Knulli(_) => ["roms"]
    case EmuDeck(_) => ["Emulation", "roms"]
    case EsDe(_) => ["ROMs"]
    case MinUI(_) => ["Roms"]
    case MuOS(_) => ["ROMS"]
    case Rocknix(_) => []
    case Onion(_) => ["Roms"]
    case Spruce(_) => ["Roms"]
  }

  /** The segments `bios_directory` puts under the root (for MinUI, before
      the system's own subdirectory). */
  function BiosSegments(f: Frontend): seq<string> {
    match f
    case Batocera(_) => ["bios"]
    case Knulli(_) => ["bios"]
    case EmuDeck(_) => ["Emulation", "bios"]
    case EsDe(_) => ["BIOS"]
    case MinUI(_) => ["Bios"]
    case MuOS(_) => ["MUOS", "Bios"]
    case Rocknix(_) => ["bios"]
    case Onion(_) => ["BIOS"]
    case Spruce(_) => ["BIOS"]
  }

  lemma BatoceraRomsArePlain(s: System)
    ensures BatoceraRoms(s).Some? ==> PlainSegment(BatoceraRoms(s).value)
  {
    match s
    case ArcadeFinalburnneo =>
    case ArcadeMame =>
    case ArcadeMame2003plus =>
    case Atari2600 =>
    case Atari5200 =>
    case Atari7800 =>
    case AtariJaguar =>
    case AtariLynx =>
    case CbsColecovision =>
    case Commodore64 =>
    case MicrosoftXbox =>
    case MicrosoftXbox360 =>
    case NecSupergrafx =>
    case NecTurbografx16 =>
    case NecTurbografxCd =>
    case Nintendo3ds =>
    case Nintendo64 =>
    case NintendoDs =>
    case NintendoFamicomDiskSystem =>
    case NintendoGameBoyAdvance =>
    case NintendoGameBoyColor =>
    case NintendoGameBoy =>
    case NintendoGamecube =>
    case NintendoNes =>
    case NintendoPokemonMini =>
    case NintendoSnes =>
    case NintendoSuperGameBoy =>
    case NintendoSwitch =>
    case NintendoVirtualBoy =>
    case NintendoWiiu =>
    case NintendoWii =>
    case Pico8 =>
    case Sega32x =>
    case SegaCd =>
    case SegaDreamcast =>
    case SegaGameGear =>
    case SegaGenesis =>
    case SegaMasterSystem =>
    case SegaNaomi =>
    case SegaSaturn =>
    case SegaSg1000 =>
    case SnkNeoGeo =>
    case SnkNeoGeoCd =>
    case SnkNeoGeoPocket =>
    case SnkNeoGeoPocketColor =>
    case SonyPlaystation2 =>
    case SonyPlaystation3 =>
    case SonyPlaystationPortable =>
    case SonyPlaystationVita =>
    case SonyPlaystation =>
  }

  lemma EmuDeckRomsArePlain(s: System)
    ensures EmuDeckRoms(s).Some? ==> PlainSegment(EmuDeckRoms(s).value)
  {
    match s
    case ArcadeFinalburnneo =>
    case ArcadeMame =>
    case ArcadeMame2003plus =>
    case Atari2600 =>
    case Atari5200 =>
    case Atari7800 =>
    case AtariJaguar =>
    case AtariLynx =>
    case CbsColecovision =>
    case Commodore64 =>
    case MicrosoftXbox =>
    case MicrosoftXbox360 =>
    case NecSupergrafx =>
    case NecTurbografx16 =>
    case NecTurbografxCd =>
    case Nintendo3ds =>
    case Nintendo64 =>
    case NintendoDs =>
    case NintendoFamicomDiskSystem =>
    case NintendoGameBoyAdvance =>
    case NintendoGameBoyColor =>
    case NintendoGameBoy =>
    case NintendoGamecube =>
    case NintendoNes =>
    case NintendoPokemonMini =>
    case NintendoSnes =>
    case NintendoSuperGameBoy =>
    case NintendoSwitch =>
    case NintendoVirtualBoy =>
    case NintendoWiiu =>
    case NintendoWii =>
    case Pico8 =>
    case Sega32x =>
    case SegaCd =>
    case SegaDreamcast =>
    case SegaGameGear =>
    case SegaGenesis =>
    case SegaMasterSystem =>
    case SegaNaomi =>
    case SegaSaturn =>
    case SegaSg1000 =>
    case SnkNeoGeo =>
    case SnkNeoGeoCd =>
    case SnkNeoGeoPocket =>
    case SnkNeoGeoPocketColor =>
    case SonyPlaystation2 =>
    case SonyPlaystation3 =>
    case SonyPlaystationPortable =>
    case SonyPlaystationVita =>
    case SonyPlaystation =>
  }

  lemma EsDeRomsArePlain(s: System)
    ensures EsDeRoms(s).Some? ==> PlainSegment(EsDeRoms(s).value)
  {
    match s
    case ArcadeFinalburnneo =>
    case ArcadeMame =>
    case ArcadeMame2003plus =>
    case Atari2600 =>
    case Atari5200 =>
    case Atari7800 =>
    case AtariJaguar =>
    case AtariLynx =>
    case CbsColecovision =>
    case Commodore64 =>
    case MicrosoftXbox =>
    case MicrosoftXbox360 =>
    case NecSupergrafx =>
    case NecTurbografx16 =>
    case NecTurbografxCd =>
    case Nintendo3ds =>
    case Nintendo64 =>
    case NintendoDs =>
    case NintendoFamicomDiskSystem =>
    case NintendoGameBoyAdvance =>
    case NintendoGameBoyColor =>
    case NintendoGameBoy =>
    case NintendoGamecube =>
    case NintendoNes =>
    case NintendoPokemonMini =>
    case NintendoSnes =>
    case NintendoSuperGameBoy =>
    case NintendoSwitch =>
    case NintendoVirtualBoy =>
    case NintendoWiiu =>
    case NintendoWii =>
    case Pico8 =>
    case Sega32x =>
    case SegaCd =>
    case SegaDreamcast =>
    case SegaGameGear =>
    case SegaGenesis =>
    case SegaMasterSystem =>
    case SegaNaomi =>
    case SegaSaturn =>
    case SegaSg1000 =>
    case SnkNeoGeo =>
    case SnkNeoGeoCd =>
    case SnkNeoGeoPocket =>
    case SnkNeoGeoPocketColor =>
    case SonyPlaystation2 =>
    case SonyPlaystation3 =>
    case SonyPlaystationPortable =>
    case SonyPlaystationVita =>
    case SonyPlaystation =>
  }

  lemma MinUIRomsArePlain(s: System)
    ensures MinUIRoms(s).Some? ==> PlainSegment(MinUIRoms(s).value)
  {
    match s
    case ArcadeFinalburnneo =>
    case ArcadeMame =>
    case ArcadeMame2003plus =>
    case Atari2600 =>
    case Atari5200 =>
    case Atari7800 =>
    case AtariJaguar =>
    case AtariLynx =>
    case CbsColecovision =>
    case Commodore64 =>
    case MicrosoftXbox =>
    case MicrosoftXbox360 =>
    case NecSupergrafx =>
    case NecTurbografx16 =>
    case NecTurbografxCd =>
    case Nintendo3ds =>
    case Nintendo64 =>
    case NintendoDs =>
    case NintendoFamicomDiskSystem =>
    case NintendoGameBoyAdvance =>
    case NintendoGameBoyColor =>
    case NintendoGameBoy =>
    case NintendoGamecube =>
    case NintendoNes =>
    case NintendoPokemonMini =>
    case NintendoSnes =>
    case NintendoSuperGameBoy =>
    case NintendoSwitch =>
    case NintendoVirtualBoy =>
    case NintendoWiiu =>
    case NintendoWii =>
    case Pico8 =>
    case Sega32x =>
    case SegaCd =>
    case SegaDreamcast =>
    case SegaGameGear =>
    case SegaGenesis =>
    case SegaMasterSystem =>
    case SegaNaomi =>
    case SegaSaturn =>
    case SegaSg1000 =>
    case SnkNeoGeo =>
    case SnkNeoGeoCd =>
    case SnkNeoGeoPocket =>
    case SnkNeoGeoPocketColor =>
    case SonyPlaystation2 =>
    case SonyPlaystation3 =>
    case SonyPlaystationPortable =>
    case SonyPlaystationVita =>
    case SonyPlaystation =>
  }

  lemma MuOSRomsArePlain(s: System)
    ensures MuOSRoms(s).Some? ==> PlainSegment(MuOSRoms(s).value)
  {
    match s
    case ArcadeFinalburnneo =>
    case ArcadeMame =>
    case ArcadeMame2003plus =>
    case Atari2600 =>
    case Atari5200 =>
    case Atari7800 =>
    case AtariJaguar =>
    case AtariLynx =>
    case CbsColecovision =>
    case Commodore64 =>
    case MicrosoftXbox =>
    case MicrosoftXbox360 =>
    case NecSupergrafx =>
    case NecTurbografx16 =>
    case NecTurbografxCd =>
    case Nintendo3ds =>
    case Nintendo64 =>
    case NintendoDs =>
    case NintendoFamicomDiskSystem =>
    case NintendoGameBoyAdvance =>
    case NintendoGameBoyColor =>
    case NintendoGameBoy =>
    case NintendoGamecube =>
    case NintendoNes =>
    case NintendoPokemonMini =>
    case NintendoSnes =>
    case NintendoSuperGameBoy =>
    case NintendoSwitch =>
    case NintendoVirtualBoy =>
    case NintendoWiiu =>
    case NintendoWii =>
    case Pico8 =>
    case Sega32x =>
    case SegaCd =>
    case SegaDreamcast =>
    case SegaGameGear =>
    case SegaGenesis =>
    case SegaMasterSystem =>
    case SegaNaomi =>
    case SegaSaturn =>
    case SegaSg1000 =>
    case SnkNeoGeo =>
    case SnkNeoGeoCd =>
    case SnkNeoGeoPocket =>
    case SnkNeoGeoPocketColor =>
    case SonyPlaystation2 =>
    case SonyPlaystation3 =>
    case SonyPlaystationPortable =>
    case SonyPlaystationVita =>
    case SonyPlaystation =>
  }

  lemma OnionRomsArePlain(s: System)
    ensures OnionRoms(s).Some? ==> PlainSegment(OnionRoms(s).value)
  {
    match s
    case ArcadeFinalburnneo =>
    case ArcadeMame =>
    case ArcadeMame2003plus =>
    case Atari2600 =>
    case Atari5200 =>
    case Atari7800 =>
    case AtariJaguar =>
    case AtariLynx =>
    case CbsColecovision =>
    case Commodore64 =>
    case MicrosoftXbox =>
    case MicrosoftXbox360 =>
    case NecSupergrafx =>
    case NecTurbografx16 =>
    case NecTurbografxCd =>
    case Nintendo3ds =>
    case Nintendo64 =>
    case NintendoDs =>
    case NintendoFamicomDiskSystem =>
    case NintendoGameBoyAdvance =>
    case NintendoGameBoyColor =>
    case NintendoGameBoy =>
    case NintendoGamecube =>
    case NintendoNes =>
    case NintendoPokemonMini =>
    case NintendoSnes =>
    case NintendoSuperGameBoy =>
    case NintendoSwitch =>
    case NintendoVirtualBoy =>
    case NintendoWiiu =>
    case NintendoWii =>
    case Pico8 =>
    case Sega32x =>
    case SegaCd =>
    case SegaDreamcast =>
    case SegaGameGear =>
    case SegaGenesis =>
    case SegaMasterSystem =>
    case SegaNaomi =>
    case SegaSaturn =>
    case SegaSg1000 =>
    case SnkNeoGeo =>
    case SnkNeoGeoCd =>
    case SnkNeoGeoPocket =>
    case SnkNeoGeoPocketColor =>
    case SonyPlaystation2 =>
    case SonyPlaystation3 =>
    case SonyPlaystationPortable =>
    case SonyPlaystationVita =>
    case SonyPlaystation =>
  }

  lemma SpruceRomsArePlain(s: System)
    ensures SpruceRoms(s).Some? ==> PlainSegment(SpruceRoms(s).value)
  {
    match s
    case ArcadeFinalburnneo =>
    case ArcadeMame =>
    case ArcadeMame2003plus =>
    case Atari2600 =>
    case Atari5200 =>
    case Atari7800 =>
    case AtariJaguar =>
    case AtariLynx =>
    case CbsColecovision =>
    case Commodore64 =>
    case MicrosoftXbox =>
    case MicrosoftXbox360 =>
    case NecSupergrafx =>
    case NecTurbografx16 =>
    case NecTurbografxCd =>
    case Nintendo3ds =>
    case Nintendo64 =>
    case NintendoDs =>
    case NintendoFamicomDiskSystem =>
    case NintendoGameBoyAdvance =>
    case NintendoGameBoyColor =>
    case NintendoGameBoy =>
    case NintendoGamecube =>
    case NintendoNes =>
    case NintendoPokemonMini =>
    case NintendoSnes =>
    case NintendoSuperGameBoy =>
    case NintendoSwitch =>
    case NintendoVirtualBoy =>
    case NintendoWiiu =>
    case NintendoWii =>
    case Pico8 =>
    case Sega32x =>
    case SegaCd =>
    case SegaDreamcast =>
    case SegaGameGear =>
    case SegaGenesis =>
    case SegaMasterSystem =>
    case SegaNaomi =>
    case SegaSaturn =>
    case SegaSg1000 =>
    case SnkNeoGeo =>
    case SnkNeoGeoCd =>
    case SnkNeoGeoPocket =>
    case SnkNeoGeoPocketColor =>
    case SonyPlaystation2 =>
    case SonyPlaystation3 =>
    case SonyPlaystationPortable =>
    case SonyPlaystationVita =>
    case SonyPlaystation =>
  }

  /** Every ROMs table entry is a plain directory name. */
  lemma RomsEntriesArePlain(f: Frontend, s: System)
    ensures RomsSubdir(f, s).Some? ==> PlainSegment(RomsSubdir(f, s).value)
  {
    match f
    case Batocera(_) => BatoceraRomsArePlain(s);
    case Knulli(_) => BatoceraRomsArePlain(s);
    case EmuDeck(_) => EmuDeckRomsArePlain(s);
    case EsDe(_) => EsDeRomsArePlain(s);
    case MinUI(_) => MinUIRomsArePlain(s);
    case MuOS(_) => MuOSRomsArePlain(s);
    case Rocknix(_) => EsDeRomsArePlain(s);
    case Onion(_) => OnionRomsArePlain(s);
    case Spruce(_) => SpruceRomsArePlain(s);
  }

  /** Every MinUI BIOS entry is a plain directory name except Dreamcast's ".". */
  lemma MinUIBiosEntriesArePlain(s: System)
    ensures MinUIBios(s).Some? ==> MinUIBios(s).value == "." || PlainSegment(MinUIBios(s).value)
    ensures MinUIBios(s) == Some(".") <==> s == SegaDreamcast
  {
  }

  /** `supported_systems` holds exactly the systems that have a ROMs directory. */
  lemma SupportedIffRomsDirectory(f: Frontend, s: System)
    ensures s in SupportedSystems(f) <==> RomsDirectory(f, s).Some?
  {
    RomsEntriesArePlain(f, s);
  }

  /** The ROMs root is the root joined with the frontend's segments. */
  lemma RomsRootSegments(f: Frontend)
    ensures RomsRoot(f) == JoinAll(f.destinationDir, RomsSegments(f))
  {
    var d := f.destinationDir;
    assert JoinAll(d, []) == d;
    match f
    case EmuDeck(_) =>
      assert ["Emulation", "roms"][..1] == ["Emulation"];
      assert ["Emulation"][..0] == [];
    case Rocknix(_) =>
    case _ =>
      assert RomsSegments(f)[..0] == [];
  }

  /** Every frontend's segments are plain directory names. */
  lemma SegmentsArePlain(f: Frontend)
    ensures AllPlain(RomsSegments(f)) && AllPlain(BiosSegments(f))
  {
  }

  /** A plain entry under the ROMs root gives a non-empty directory without a
      trailing slash that ends with the entry; for a non-empty root it is the
      root followed by the frontend's segments and the entry, one slash apart. */
  lemma EntryLayout(f: Frontend, entry: string)
    requires PlainSegment(entry)
    ensures var r := Join(RomsRoot(f), entry);
      r != "" && StripTrailingSlashes(r) == r && EndsWith(r, entry)
    ensures f.destinationDir != "" ==>
      Join(RomsRoot(f), entry) == Layout(f.destinationDir, RomsSegments(f) + [entry])
  {
    var segs := RomsSegments(f) + [entry];
    JoinNormal(RomsRoot(f), entry);
    JoinPlain(RomsRoot(f), entry);
    if f.destinationDir != "" {
      RomsRootSegments(f);
      SegmentsArePlain(f);
      assert segs[..|segs| - 1] == RomsSegments(f);
      assert AllPlain(segs) by {
        forall i | 0 <= i < |segs| ensures PlainSegment(segs[i]) {
          if i < |segs| - 1 {
            assert segs[i] == RomsSegments(f)[i];
          }
        }
      }
      JoinAllLayout(f.destinationDir, segs);
    }
  }

  /** A ROMs directory is non-empty, has no trailing slash and ends with the
      table entry. For a non-empty root it is the root followed by the
      frontend's segments and the entry, one slash apart. */
  lemma RomsDirectoryLayout(f: Frontend, s: System)
    ensures RomsDirectory(f, s).Some? ==>
      var r := RomsDirectory(f, s).value;
      r != "" && StripTrailingSlashes(r) == r && EndsWith(r, RomsSubdir(f, s).value)
    ensures RomsDirectory(f, s).Some? && f.destinationDir != "" ==>
      RomsDirectory(f, s).value
        == Layout(f.destinationDir, RomsSegments(f) + [RomsSubdir(f, s).value])
  {
    if RomsDirectory(f, s).Some? {
      RomsEntriesArePlain(f, s);
      EntryLayout(f, RomsSubdir(f, s).value);
    }
  }

  /** Every frontend but MinUI joins its BIOS segments under the root, for
      every system; for a non-empty root that is their layout. */
  lemma BiosDirectoryLayout(f: Frontend)
    requires !f.MinUI?
    ensures SharedBiosDirectory(f) == JoinAll(f.destinationDir, BiosSegments(f))
    ensures f.destinationDir != "" ==>
      SharedBiosDirectory(f) == Layout(f.destinationDir, BiosSegments(f))
  {
    var d := f.destinationDir;
    assert JoinAll(d, []) == d;
    match f
    case EmuDeck(_) =>
      assert ["Emulation", "bios"][..1] == ["Emulation"];
      assert ["Emulation"][..0] == [];
    case MuOS(_) =>
      assert ["MUOS", "Bios"][..1] == ["MUOS"];
      assert ["MUOS"][..0] == [];
    case Batocera(_) => assert ["bios"][..0] == [];
    case Knulli(_) => assert ["bios"][..0] == [];
    case EsDe(_) => assert ["BIOS"][..0] == [];
    case Rocknix(_) => assert ["bios"][..0] == [];
    case Onion(_) => assert ["BIOS"][..0] == [];
    case Spruce(_) => assert ["BIOS"][..0] == [];
    if d != "" {
      SegmentsArePlain(f);
      JoinAllLayout(d, BiosSegments(f));
    }
  }

  /** MinUI's BIOS directory for a system is "Bios" and the system's entry
      under the root, or "Bios" alone for Dreamcast's "." entry; for a
      non-empty root that is their layout. */
  lemma MinUIBiosDirectoryLayout(d: string, s: System)
    requires d != ""
    ensures BiosDirectory(MinUI(d), s).Some? ==>
      BiosDirectory(MinUI(d), s).value
        == Layout(d, ["Bios"] + (if s == SegaDreamcast then [] else [MinUIBios(s).value]))
  {
    if BiosDirectory(MinUI(d), s).Some? {
      MinUIBiosEntriesArePlain(s);
      assert JoinAll(d, []) == d;
      JoinAllLayout(d, ["Bios"]);
      if s == SegaDreamcast {
        JoinDot(Join(d, "Bios"));
        assert ["Bios"] + [] == ["Bios"];
      } else {
        var segs := ["Bios", MinUIBios(s).value];
        assert segs[..1] == ["Bios"];
        assert AllPlain(segs);
        JoinAllLayout(d, segs);
        assert ["Bios"] + [MinUIBios(s).value] == segs;
      }
    }
  }

  /** Every BIOS directory is non-empty and has no trailing slash, so the
      copier's appended "/" is the only one. */
  lemma BiosDirectoryNormal(f: Frontend, s: System)
    ensures BiosDirectory(f, s).Some? ==>
      BiosDirectory(f, s).value != "" && StripTrailingSlashes(BiosDirectory(f, s).value) == BiosDirectory(f, s).value
  {
    var d := f.destinationDir;
    match f
    case Batocera(_) => JoinNormal(d, "bios");
    case Knulli(_) => JoinNormal(d, "bios");
    case EmuDeck(_) => JoinNormal(Join(d, "Emulation"), "bios");
    case EsDe(_) => JoinNormal(d, "BIOS");
    case MinUI(_) =>
      if BiosDirectory(f, s).Some? {
        MinUIBiosEntriesArePlain(s);
        JoinNormal(d, "Bios");
        if s == SegaDreamcast {
          JoinDot(Join(d, "Bios"));
        } else {
          JoinNormal(Join(d, "Bios"), MinUIBios(s).value);
        }
      }
    case MuOS(_) => JoinNormal(Join(d, "MUOS"), "Bios");
    case Rocknix(_) => JoinNormal(d, "bios");
    case Onion(_) => JoinNormal(d, "BIOS");
    case Spruce(_) => JoinNormal(d, "BIOS");
  }

  /** Knulli is Batocera under another name. */
  lemma KnulliIsBatocera(d: string, s: System)
    ensures BiosDirectory(Knulli(d), s) == BiosDirectory(Batocera(d), s)
    ensures RomsDirectory(Knulli(d), s) == RomsDirectory(Batocera(d), s)
    ensures SupportedSystems(Knulli(d)) == SupportedSystems(Batocera(d))
    ensures Name(Knulli(d)) != Name(Batocera(d))
  {
  }

  /** ROCKNIX supports exactly the ES-DE systems. */
  lemma RocknixSupportsEsDeSystems(d: string)
    ensures SupportedSystems(Rocknix(d)) == SupportedSystems(EsDe(d))
  {
    forall s
      ensures s in SupportedSystems(Rocknix(d)) <==> s in SupportedSystems(EsDe(d))
    {
      assert RomsSubdir(Rocknix(d), s) == RomsSubdir(EsDe(d), s);
    }
  }

  /** ROCKNIX puts each ES-DE entry directly under its root, with no ROMs
      segment in between. */
  lemma RocknixUsesEsDeTable(d: string, s: System)
    ensures RomsDirectory(Rocknix(d), s)
      == if EsDeRoms(s).Some? then Some(Join(d, EsDeRoms(s).value)) else None
  {
    EsDeRomsArePlain(s);
  }
}
