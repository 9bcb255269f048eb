/** Gaming-system identifiers shared by both versions of the tool, and their
    enum values (the strings the tool prints and sorts by). */
module Systems {

  /** One constructor per identifier of the System enumeration, in declaration order. */
  datatype System =
    | ArcadeFinalburnneo
    | ArcadeMame
    | ArcadeMame2003plus
    | Atari2600
    | Atari5200
    | Atari7800
    | AtariJaguar
    | AtariLynx
    | CbsColecovision
    | Commodore64
    | MicrosoftXbox
    | MicrosoftXbox360
    | NecSupergrafx
    | NecTurbografx16
    | NecTurbografxCd
    | Nintendo3ds
    | Nintendo64
    | NintendoDs
    | NintendoFamicomDiskSystem
    | NintendoGameBoyAdvance
    | NintendoGameBoyColor
    | NintendoGameBoy
    | NintendoGamecube
    | NintendoNes
    | NintendoPokemonMini
    | NintendoSnes
    | NintendoSuperGameBoy
    | NintendoSwitch
    | NintendoVirtualBoy
    | NintendoWiiu
    | NintendoWii
    | Pico8
    | Sega32x
    | SegaCd
    | SegaDreamcast
    | SegaGameGear
    | SegaGenesis
    | SegaMasterSystem
    | SegaNaomi
    | SegaSaturn
    | SegaSg1000
    | SnkNeoGeo
    | SnkNeoGeoCd
    | SnkNeoGeoPocket
    | SnkNeoGeoPocketColor
    | SonyPlaystation2
    | SonyPlaystation3
    | SonyPlaystationPortable
    | SonyPlaystationVita
    | SonyPlaystation

  /** The enum value (Python `System.value`, Ruby `Symbol#to_s`). */
  function Value(s: System): string {
    match s
    case ArcadeFinalburnneo => "arcade_finalburnneo"
    case ArcadeMame => "arcade_mame"
    case ArcadeMame2003plus => "arcade_mame2003plus"
    case Atari2600 => "atari_2600"
    case Atari5200 => "atari_5200"
    case Atari7800 => "atari_7800"
    case AtariJaguar => "atari_jaguar"
    case AtariLynx => "atari_lynx"
    case CbsColecovision => "cbs_colecovision"
    case Commodore64 => "commodore_64"
    case MicrosoftXbox => "microsoft_xbox"
    case MicrosoftXbox360 => "microsoft_xbox_360"
    case NecSupergrafx => "nec_supergrafx"
    case NecTurbografx16 => "nec_turbografx_16"
    case NecTurbografxCd => "nec_turbografx_cd"
    case Nintendo3ds => "nintendo_3ds"
    case Nintendo64 => "nintendo_64"
    case NintendoDs => "nintendo_ds"
    case NintendoFamicomDiskSystem => "nintendo_famicom_disk_system"
    case NintendoGameBoyAdvance => "nintendo_game_boy_advance"
    case NintendoGameBoyColor => "nintendo_game_boy_color"
    case NintendoGameBoy => "nintendo_game_boy"
    case NintendoGamecube => "nintendo_gamecube"
    case NintendoNes => "nintendo_nes"
    case NintendoPokemonMini => "nintendo_pokemon_mini"
    case NintendoSnes => "nintendo_snes"
    case NintendoSuperGameBoy => "nintendo_super_game_boy"
    case NintendoSwitch => "nintendo_switch"
    case NintendoVirtualBoy => "nintendo_virtual_boy"
    case NintendoWiiu => "nintendo_wiiu"
    case NintendoWii => "nintendo_wii"
    case Pico8 => "pico_8"
    case Sega32x => "sega_32x"
    case SegaCd => "sega_cd"
    case SegaDreamcast => "sega_dreamcast"
    case SegaGameGear => "sega_game_gear"
    case SegaGenesis => "sega_genesis"
    case SegaMasterSystem => "sega_master_system"
    case SegaNaomi => "sega_naomi"
    case SegaSaturn => "sega_saturn"
    case SegaSg1000 => "sega_sg_1000"
    case SnkNeoGeo => "snk_neo_geo"
    case SnkNeoGeoCd => "snk_neo_geo_cd"
    case SnkNeoGeoPocket => "snk_neo_geo_pocket"
    case SnkNeoGeoPocketColor => "snk_neo_geo_pocket_color"
    case SonyPlaystation2 => "sony_playstation_2"
    case SonyPlaystation3 => "sony_playstation_3"
    case SonyPlaystationPortable => "sony_playstation_portable"
    case SonyPlaystationVita => "sony_playstation_vita"
    case SonyPlaystation => "sony_playstation"
  }

}
