/** The `SourceConfig` module of the earlier Ruby version: fixed library
    directories on one remote host, always reached over SSH, and fixed
    per-system subdirectory tables. */
module LegacySource {
  import opened Systems
  import opened Wrappers
  import opened SourceConfigs

  const LocalBiosDir: string := "/mnt/storage/Games/BIOS Files"
  const LocalRomsDir: string := "/mnt/storage/Games/ROMs/Curated"
  const LocalBatoceraArtDir: string := "/mnt/storage/Games/Art/Batocera/"
  const RemoteHostname: string := "nas-01"

  /** `BIOS_DIR`, `ROMS_DIR` and `BATOCERA_ART_DIR`: "host:path". */
  const BiosDir: string := RemoteHostname + ":" + LocalBiosDir
  const RomsDir: string := RemoteHostname + ":" + LocalRomsDir
  const BatoceraArtDir: string := RemoteHostname + ":" + LocalBatoceraArtDir

  /** `SourceConfig::BIOS_SUBDIRS[s]` (old/copy_bios_rom_files.rb:76-94). */
  function SourceBios(s: System): Option<string> {
    match s
    case ArcadeFinalburnneo => Some("Arcade - Final Burn Neo")
    case ArcadeMame2003plus => Some("Arcade - MAME 2003 Plus")
    case NecTurbografx16 => Some("NEC - PC Engine - TurboGrafx 16")
    case NecTurbografxCd => Some("NEC - PC Engine CD - TurboGrafx-CD")
    case Nintendo3ds => Some("Nintendo - 3DS")
    case NintendoDs => Some("Nintendo - DS")
    case NintendoGameBoyAdvance => Some("Nintendo - Game Boy Advance")
    case NintendoGameBoyColor => Some("Nintendo - Game Boy Color")
    case NintendoGameBoy => Some("Nintendo - Game Boy")
    case NintendoGamecube => Some("Nintendo - GameCube")
    case Pico8 => Some("PICO-8")
    case SegaCd => Some("Sega - Sega CD")
    case SegaDreamcast => Some("Sega - Dreamcast")
    case SegaSaturn => Some("Sega - Saturn")
    case SnkNeoGeo => Some("SNK - Neo Geo")
    case SnkNeoGeoCd => Some("SNK - Neo Geo CD")
    case SonyPlaystation => Some("Sony - Playstation")
    case SonyPlaystation2 => Some("Sony - Playstation 2")
    case SonyPlaystationVita => Some("Sony - Playstation Vita")
    case _ => None
  }

  /** `SourceConfig::ROMS_SUBDIRS[s]` (old/copy_bios_rom_files.rb:98-134). */
  function SourceRoms(s: System): Option<string> {
    match s
    case ArcadeFinalburnneo => Some("Arcade - Final Burn Neo (1.0.0.3 Best Set)")
    case ArcadeMame2003plus => Some("Arcade - MAME 2003 Plus (Tiny Best Set)")
    case Atari2600 => Some("Atari - 2600")
    case Atari5200 => Some("Atari - 5200")
    case Atari7800 => Some("Atari - 7800")
    case AtariJaguar => Some("Atari - Jaguar")
    case AtariLynx => Some("Atari - Lynx")
    case CbsColecovision => Some("CBS - Colecovision")
    case Commodore64 => Some("Commodore - 64")
    case NecTurbografx16 => Some("NEC - TurboGrafx 16")
    case NecTurbografxCd => Some("NEC - TurboGrafx-CD (Tiny Best Set)")
    case Nintendo64 => Some("Nintendo - Nintendo 64")
    case NintendoDs => Some("Nintendo - Nintendo DS (Retro ROMs Best Set)")
    case NintendoFamicomDiskSystem => Some("Nintendo - Famicom Disk System")
    case NintendoGameBoyAdvance => Some("Nintendo - Game Boy Advance")
    case NintendoGameBoyColor => Some("Nintendo - Game Boy Color")
    case NintendoGameBoy => Some("Nintendo - Game Boy")
    case NintendoGamecube => Some("Nintendo - GameCube (Retro ROMs Best Set)")
    case NintendoNes => Some("Nintendo - Nintendo Entertainment System")
    case NintendoSnes => Some("Nintendo - Super Nintendo Entertainment System")
    case NintendoSwitch => Some("Nintendo - Nintendo Switch")
    case NintendoWii => Some("Nintendo - Wii (Minimal)")
    case Pico8 => Some("Lexaloffle - PICO-8")
    case Sega32x => Some("Sega - Sega 32X")
    case SegaCd => Some("Sega - Sega CD (Tiny Best Set)")
    case SegaDreamcast => Some("Sega - Dreamcast (Retro ROMs Best Set)")
    case SegaGameGear => Some("Sega - Game Gear")
    case SegaGenesis => Some("Sega - Genesis")
    case SegaMasterSystem => Some("Sega - Master System")
    case SegaSaturn => Some("Sega - Saturn (Retro ROMs Best Set)")
    case SegaSg1000 => Some("Sega - SG-1000")
    case SnkNeoGeo => Some("SNK - Neo Geo")
    case SnkNeoGeoCd => Some("SNK - Neo Geo CD")
    case SnkNeoGeoPocket => Some("SNK - Neo Geo Pocket")
    case SnkNeoGeoPocketColor => Some("SNK - Neo Geo Pocket Color")
    case SonyPlaystation => Some("Sony - Playstation (Tiny Best Set)")
    case SonyPlaystationPortable => Some("Sony - Playstation Portable (Retro ROMs Best Set)")
    case _ => None
  }
  /** What the copier and the sizes report read of the module: the library
      directories, the host, and the two subdirectory tables. */
  datatype Library = Library(
    biosDir: string,
    romsDir: string,
    localRomsDir: string,
    remoteHostname: string,
    biosSubdir: System -> Option<string>,
    romsSubdir: System -> Option<string>)

  /** The module itself. */
  function Source(): (lib: Library)
    ensures lib.biosDir == BiosDir && lib.romsDir == RomsDir
    ensures lib.localRomsDir == LocalRomsDir && lib.remoteHostname == RemoteHostname
    ensures forall s :: lib.biosSubdir(s) == SourceBios(s)
    ensures forall s :: lib.romsSubdir(s) == SourceRoms(s)
  {
    Library(BiosDir, RomsDir, LocalRomsDir, RemoteHostname, SourceBios, SourceRoms)
  }

  /** The host name has neither ':' nor '/'. */
  lemma HostIsPlain()
    ensures forall i :: 0 <= i < |RemoteHostname| ==> RemoteHostname[i] != ':' && RemoteHostname[i] != '/'
  {
  }

  /** rsync reads all three library directories as remote, on `nas-01`. */
  lemma LibraryIsRemote()
    ensures NamesRemoteHost(BiosDir) && NamesRemoteHost(RomsDir) && NamesRemoteHost(BatoceraArtDir)
  {
    HostIsPlain();
    NamesRemoteHostAfterHost(RemoteHostname, LocalBiosDir);
    NamesRemoteHostAfterHost(RemoteHostname, LocalRomsDir);
    NamesRemoteHostAfterHost(RemoteHostname, LocalBatoceraArtDir);
  }
}
