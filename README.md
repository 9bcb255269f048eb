# copy_bios_rom_files, modelled in Dafny

`copy_bios_rom_files` copies BIOS files and ROM sets from a library on a
NAS to the SD card (or a remote host) of a handheld emulation frontend. It
is given a frontend name and a ROM pack level. It turns these into one
`rsync -avP` per system, from the library's subdirectory for the system
to the directory where that frontend keeps it. A `sizes` destination
instead runs `du` over the library's ROM directories, over SSH.

The repository holds two versions, and both are modelled:

- **the current Python version** (`copy_bios_rom_files.py`). Modules
  `SourceConfigs`, `Frontends`, `Levels`, `Factory`, `Copier`, `Sizes`
  and `Cli`:
  - the library configuration is a value (loaded from YAML, which is not
    modelled);
  - paths are joined as `PurePosixPath` joins a base with a plain name or
    with ".", which is what the lookup tables hold; pathlib's other
    normalisation is not modelled (see "## Left out");
  - a level is lowercased and has "level-" and "level_" removed.
- **the earlier Ruby version** (`old/copy_bios_rom_files.rb`). Modules
  `LegacySource`, `LegacyFrontends`, `LegacyLevels`, `LegacyFactory`,
  `LegacyCopier`, `LegacySizes` and `LegacyCli`:
  - the library is a fixed module of constants on the host `nas-01`;
  - paths are built by string interpolation;
  - ROCKNIX is reached over SSH;
  - a level has `level`, `level-` or `level_` removed by a regular
    expression;
  - every level selects no systems.

Modules shared by both versions:

| module | holds |
|---|---|
| `Systems` | the system identifiers and their `value` strings |
| `Strings` | ASCII lowercasing, `str.replace`, lexicographic order, joining with a separator |
| `Paths` | the `PurePosixPath` join, for plain names and "." |
| `Sorting` | sorting systems by a key |
| `Effects` | what a run does to the outside world, recorded as data: printed lines, rsync commands, the `ssh … du` call and the exit status |
| `Versions` | lemmas relating the two versions |

Both `FileCopier`s are classes with two fields:

- `output`: the lines printed so far;
- `executed`: the rsync commands run so far.

`Valid()` ties the two fields together: the commands run are exactly the
rsync lines printed, or none in a dry run. Each copy method extends
`output` by a function over the system list (`BiosOutput`, `RomOutput`).
The source's promises are proved about those functions. Each
`RomSizeDisplay.display` is a method with a loop. Its result is proved
equal to a function (`SizesCommand`), whose listing is proved sorted,
complete and filtered.

## Model

| member | source | states |
|---|---|---|
| SourceConfigs.LibraryDirectoriesPrefixed | copy_bios_rom_files.py:111-129 | `bios_dir`, `roms_dir` and `batocera_art_dir` are "host:" plus the configured path for a remote source, and the configured path unchanged otherwise |
| SourceConfigs.PrefixIsRemoteExactlyWhenRemoteSource | copy_bios_rom_files.py:111-114 | for a host name with no ':' or '/' and a local path, rsync reads the prefixed path as remote exactly when `remote_source` is set |
| Paths.JoinPlain | copy_bios_rom_files.py:224-228 | joining a plain segment ends with the segment, has no trailing slash, and under a non-empty base is the base without trailing slashes, "/", then the segment |
| Paths.JoinDot | copy_bios_rom_files.py:419-423 | a "." segment (MinUI's Dreamcast BIOS entry) leaves a normal base unchanged |
| Paths.JoinAllLayout | copy_bios_rom_files.py:300-304 | a chain of plain joins under a non-empty base is the base and the segments, one slash apart, with no trailing slash |
| Sorting.SortBySorted | copy_bios_rom_files.py:700 | `sorted(systems, key=value)` is ordered by value and is a permutation of its input |
| Frontends.RomsDirectory | copy_bios_rom_files.py:224-228 | `roms_directory(s)` is None exactly when the frontend's ROMs table has no non-empty entry for `s` |
| Frontends.SupportedIffRomsDirectory | copy_bios_rom_files.py:151-154 | `s` is in `supported_systems` exactly when `roms_directory(s)` is not None |
| Frontends.RomsEntriesArePlain | copy_bios_rom_files.py:165-212 | every entry of every ROMs table is a plain directory name (non-empty, not ".", no leading or trailing slash) |
| Frontends.RomsDirectoryLayout | copy_bios_rom_files.py:300-304 | a ROMs directory is non-empty, has no trailing slash and ends with the table entry; under a non-empty root it is the root, the frontend's segments ("Emulation", "roms" for EmuDeck) and the entry, one slash apart |
| Frontends.BiosDirectory | copy_bios_rom_files.py:221-222 | only MinUI can have no BIOS directory; every other frontend has one directory, the same for every system |
| Frontends.MinUIBiosDirectory | copy_bios_rom_files.py:419-423 | MinUI's BIOS directory is None exactly when `BIOS_SUBDIRS` has no non-empty entry for the system |
| Frontends.BiosDirectoryLayout | copy_bios_rom_files.py:297-298 | a frontend other than MinUI puts its BIOS directory at the root joined with its segments ("MUOS", "Bios" for MuOS); for a non-empty root these are one slash apart |
| Frontends.MinUIBiosDirectoryLayout | copy_bios_rom_files.py:419-423 | MinUI's BIOS directory is root/Bios/entry, or root/Bios for Dreamcast's "." entry |
| Frontends.MinUIBiosEntriesArePlain | copy_bios_rom_files.py:383-392 | every MinUI BIOS entry is a plain name except Dreamcast's ".", which is the only "." entry |
| Frontends.BiosDirectoryNormal | copy_bios_rom_files.py:645-650 | every BIOS directory is non-empty and has no trailing slash, so the copier's appended "/" is the only one |
| Frontends.KnulliIsBatocera | copy_bios_rom_files.py:235-240 | Knulli has Batocera's BIOS directory, ROMs directories and supported systems, and a different name |
| Frontends.RocknixSupportsEsDeSystems | copy_bios_rom_files.py:500-501 | ROCKNIX supports exactly the ES-DE systems |
| Frontends.RocknixUsesEsDeTable | copy_bios_rom_files.py:493-497 | a ROCKNIX ROMs directory is the ES-DE entry joined directly under the root, with no "roms" segment |
| Factory.Create | copy_bios_rom_files.py:737-743 | `create(name)` finds a frontend exactly when the lowercased name is a key of `_FRONTENDS`, and the frontend it builds has that key and the given root |
| Factory.KeyIsLowercase | copy_bios_rom_files.py:725-735 | every key of `_FRONTENDS` is already lower case |
| Factory.CreateKeyRoundTrip | copy_bios_rom_files.py:725-743 | creating a frontend from its own key gives back that frontend |
| Factory.AvailableNamesCreate | copy_bios_rom_files.py:745-748 | every name `available_frontends` lists creates a frontend |
| Factory.CreateCaseInsensitive | copy_bios_rom_files.py:737-743 | two names that lowercase alike create the same frontend |
| Factory.CreateUpperCase | copy_bios_rom_files.py:737-743 | the spellings "ROCKNIX" and "EsDe" create the same frontends as the keys "rocknix" and "esde" |
| Levels.LevelsNested | copy_bios_rom_files.py:754-791 | each level's list extends the previous one, with 14, 15, 19, 21 and 24 systems |
| Levels.IsValidLevel | copy_bios_rom_files.py:807-811 | `is_valid_level(l)` holds exactly when `systems_for_level(l)` is not None |
| Levels.KeysAreNormal | copy_bios_rom_files.py:801-805 | a bare key "1" to "5" is its own normal form |
| Levels.LevelPrefixIgnored | copy_bios_rom_files.py:801-805 | "level-" or "level_" in any letter case in front of a key selects that key's list |
| Levels.LevelWithoutSeparatorRejected | copy_bios_rom_files.py:801-811 | "level3", with no separator, names no level |
| Levels.LevelSpellings | copy_bios_rom_files.py:801-811 | "3", "level-3" and "LEVEL_3" all select the level-3 list |
| Copier.FileCopier.constructor | copy_bios_rom_files.py:629-637 | a new copier has the given frontend, configuration and dry-run flag, and has printed and run nothing |
| Copier.FileCopier.Rsync | copy_bios_rom_files.py:681-690 | `_rsync` prints one `--size-only` rsync line and runs the command unless in a dry run |
| Effects.Commands | copy_bios_rom_files.py:681-690 | the commands a run executes are exactly those of its printed rsync lines: a command is among them exactly when its rsync line was printed |
| Copier.FileCopier.Notice | copy_bios_rom_files.py:662-672 | printing a skip notice adds that one line to the output and runs nothing |
| Copier.FileCopier.CopyBiosFiles | copy_bios_rom_files.py:639-653 | the loop prints exactly `BiosOutput` of the systems after what was printed before, and keeps the run/printed invariant |
| Copier.FileCopier.CopyRomFiles | copy_bios_rom_files.py:655-679 | the loop prints exactly `RomOutput` of the systems after what was printed before, and keeps the run/printed invariant |
| Copier.BiosOutputAppend | copy_bios_rom_files.py:641 | the BIOS output follows the input order: the output for `xs + ys` is the output for `xs` and then the output for `ys` |
| Copier.BiosStepShape | copy_bios_rom_files.py:641-653 | a system gives at most one rsync, none exactly when its source entry or destination is missing; source and destination end with "/", and the destination is the BIOS directory plus "/" |
| Copier.BiosStepOnFrontend | copy_bios_rom_files.py:645-650 | on a frontend, a system with a source entry is skipped only for MinUI without a BIOS entry, and the destination is the BIOS directory with a single "/" added |
| Copier.BiosOutputCoverage | copy_bios_rom_files.py:639-653 | there is at most one rsync per input system; every rsync comes from some input system, and every input system with a source and a destination gets its rsync |
| Copier.RomOutputAppend | copy_bios_rom_files.py:657 | the ROMs output follows the input order: the output for `xs + ys` is the output for `xs` and then the output for `ys` |
| Copier.RomStepShape | copy_bios_rom_files.py:657-679 | a system prints one line: "No source ROMS" without a source entry, "No destination directory" without a destination, else one rsync whose source ends in "//" when the source directory is not copied and in a single "/" when it is, and whose destination is the ROMs directory unchanged |
| Copier.RomStepOnFrontend | copy_bios_rom_files.py:666-672 | on a frontend, "No destination directory" is printed exactly when the system has a source entry but no entry in the frontend's ROMs table |
| Copier.RomOutputPerSystem | copy_bios_rom_files.py:655-679 | the ROMs output has one line per input system, in input order |
| Sizes.Display | copy_bios_rom_files.py:697-719 | the loop computes exactly `SizesCommand`: the quoted directories of the systems in value order, or nothing |
| Sizes.EntriesOfListed | copy_bios_rom_files.py:703-709 | the directory list has one entry per listed system, in order, each the quoted directory of its ROMs entry |
| Sizes.SizesListing | copy_bios_rom_files.py:700-709 | the report lists the given systems that have a ROMs entry, as often as they are given and no others, sorted by value |
| Sizes.SizesCommandNoneIff | copy_bios_rom_files.py:711-719 | nothing is run exactly when no given system has a ROMs entry; otherwise `du` runs on the library host |
| Cli.ConfigFor | copy_bios_rom_files.py:842-844 | the library is read over SSH exactly when the destination directory has no ':'; the rest of the configuration is kept |
| Cli.LevelSystems | copy_bios_rom_files.py:848-855 | an empty level selects no systems, and any other level is rejected exactly when it is not valid |
| Cli.Run | copy_bios_rom_files.py:814-881 | `main` returns 0 or 1. It runs exactly the rsync lines it prints. A sizes report runs `du` for the level's systems, or rejects the level. A copy checks the destination directory, then the level, then the frontend name, each with its message and code 1, and otherwise prints the BIOS and then the ROMs output for the level |
| LegacySource.Source | old/copy_bios_rom_files.rb:65-135 | the library is `nas-01:` plus the fixed local directories, with the `BIOS_SUBDIRS` and `ROMS_SUBDIRS` tables |
| LegacySource.LibraryIsRemote | old/copy_bios_rom_files.rb:69-73 | `BIOS_DIR`, `ROMS_DIR` and `BATOCERA_ART_DIR` all name the remote host for rsync |
| LegacySource.HostIsPlain | old/copy_bios_rom_files.rb:69 | `nas-01` has no ':' or '/', so "nas-01:path" is a remote path for rsync |
| LegacyFrontends.RomsDirectory | old/copy_bios_rom_files.rb:230-235 | `roms_directory(s)` is nil exactly when `s` is not a supported system, and otherwise ends with "/" and the table entry |
| LegacyFrontends.RomsPrefix | old/copy_bios_rom_files.rb:230-235 | the text every ROMs directory starts with is non-empty and ends with "/" |
| LegacyFrontends.RomsDirectoryLayout | old/copy_bios_rom_files.rb:313-318 | a ROMs directory is the base (root, ROCKNIX host plus ':', or ES-DE's ROMs directory), then the frontend's directory names and the entry, each after one slash |
| LegacyFrontends.BiosDirectory | old/copy_bios_rom_files.rb:226-228 | only MinUI can have no BIOS directory; every other frontend has one directory, the same for every system |
| LegacyFrontends.MinUIBiosDirectory | old/copy_bios_rom_files.rb:449-454 | MinUI's BIOS directory is nil exactly when `BIOS_SUBDIRS` has no entry for the system |
| LegacyFrontends.BiosDirectoryLayout | old/copy_bios_rom_files.rb:309-311 | the BIOS directory of a frontend other than ES-DE and MinUI is the base, then the frontend's directory names, each after one slash |
| LegacyFrontends.MinUIBiosDirectoryLayout | old/copy_bios_rom_files.rb:449-454 | MinUI's BIOS directory is root/Bios/entry |
| LegacyFrontends.KnulliIsBatocera | old/copy_bios_rom_files.rb:245-249 | Knulli has Batocera's BIOS directory, ROMs directories and supported systems, and a different name |
| LegacyFrontends.RocknixSupportsEsdeSystems | old/copy_bios_rom_files.rb:549-551 | ROCKNIX supports exactly the ES-DE systems |
| LegacyFrontends.RocknixIsRemote | old/copy_bios_rom_files.rb:536-545 | for a host name with no ':' or '/', ROCKNIX's BIOS directory and every ROMs directory name that remote host for rsync |
| LegacyFrontends.DefaultRocknixHostIsPlain | old/copy_bios_rom_files.rb:526 | the default ROCKNIX host has no ':' or '/', so the directories built from it are remote |
| LegacyLevels.GsubLevel | old/copy_bios_rom_files.rb:809 | removing `level[-_]?` never lengthens the text (its value is stated by the next two rows) |
| LegacyLevels.GsubWithoutL | old/copy_bios_rom_files.rb:809 | text with no "l" in it has nothing to remove and comes back unchanged |
| LegacyLevels.GsubLeading | old/copy_bios_rom_files.rb:809 | "level", "level-" or "level_" in front of text without an "l" is removed and leaves exactly that text; after a bare "level" the text must not start with "-" or "_", which the pattern would remove as its separator |
| LegacyLevels.IsValidLevel | old/copy_bios_rom_files.rb:813-816 | `valid_level?(l)` holds exactly when `systems_for_level(l)` is not nil |
| LegacyLevels.EveryLevelIsEmpty | old/copy_bios_rom_files.rb:800-806 | every valid level selects no systems |
| LegacyLevels.LevelPrefixIgnored | old/copy_bios_rom_files.rb:808-811 | "level", "level-" or "level_" in any letter case in front of a key normalises to the key, which is valid |
| LegacyLevels.LevelSpellings | old/copy_bios_rom_files.rb:808-816 | for every key, the key itself, "level", "level-", "LEVEL_" and "Level" in front of it are all valid |
| LegacyFactory.Create | old/copy_bios_rom_files.rb:786-791 | `create(name)` finds a frontend exactly when the lowercased name is a key of `FRONTENDS`, and builds it with its default root |
| LegacyFactory.KeyIsLowercase | old/copy_bios_rom_files.rb:774-784 | every key of `FRONTENDS` is already lower case |
| LegacyFactory.CreateKeyRoundTrip | old/copy_bios_rom_files.rb:774-791 | creating a frontend from its own key gives back its default instance |
| LegacyFactory.CreateCaseInsensitive | old/copy_bios_rom_files.rb:786-791 | two names that lowercase alike create the same frontend |
| LegacyCopier.FileCopier.constructor | old/copy_bios_rom_files.rb:694-697 | a new copier has the given frontend, library and dry-run flag, and has printed and run nothing |
| LegacyCopier.FileCopier.Rsync | old/copy_bios_rom_files.rb:740-747 | `rsync` prints one rsync line without `--size-only` and runs the command unless in a dry run |
| LegacyCopier.FileCopier.Notice | old/copy_bios_rom_files.rb:719-728 | printing a skip notice adds that one line to the output and runs nothing |
| LegacyCopier.FileCopier.CopyBiosFiles | old/copy_bios_rom_files.rb:699-712 | the loop prints exactly `BiosOutput` of the systems after what was printed before, and keeps the run/printed invariant |
| LegacyCopier.FileCopier.CopyRomFiles | old/copy_bios_rom_files.rb:714-738 | the loop prints exactly `RomOutput` of the systems after what was printed before, and keeps the run/printed invariant |
| LegacyCopier.BiosOutputAppend | old/copy_bios_rom_files.rb:700 | the BIOS output follows the input order: the output for `xs + ys` is the output for `xs` and then the output for `ys` |
| LegacyCopier.RomOutputAppend | old/copy_bios_rom_files.rb:715 | the ROMs output follows the input order: the output for `xs + ys` is the output for `xs` and then the output for `ys` |
| LegacyCopier.BiosStepShape | old/copy_bios_rom_files.rb:699-712 | a system gives at most one rsync, none exactly when its source entry or destination is missing; the source ends with "/" plus the entry plus "/", and the destination is the BIOS directory plus "/" |
| LegacyCopier.BiosOutputCoverage | old/copy_bios_rom_files.rb:699-712 | there is at most one rsync per input system; every rsync comes from some input system, and every input system with a source and a destination gets its rsync |
| LegacyCopier.BiosStepOnFrontend | old/copy_bios_rom_files.rb:703-704 | on a frontend, a system with a source entry is skipped only for MinUI without a BIOS entry |
| LegacyCopier.RomStepShape | old/copy_bios_rom_files.rb:714-738 | a system prints one line: "No source ROMS", "No destination directory", or one rsync whose source ends with the entry and "//" (or "/" when the source directory is copied), and whose destination always gets a trailing "/" |
| LegacyCopier.RomStepOnFrontend | old/copy_bios_rom_files.rb:723-728 | on a frontend, "No destination directory" is printed exactly when the system has a source entry but is not supported |
| LegacyCopier.RomOutputPerSystem | old/copy_bios_rom_files.rb:714-738 | the ROMs output has one line per input system, in input order |
| LegacyCopier.BiosSourceIsRemote | old/copy_bios_rom_files.rb:707 | every BIOS source path names the library host for rsync |
| LegacyCopier.RomSourceIsRemote | old/copy_bios_rom_files.rb:731 | every ROMs source path names the library host for rsync |
| LegacySizes.Display | old/copy_bios_rom_files.rb:752-769 | the loop computes exactly `SizesCommand`: the local directories of the systems with a ROMs entry, sorted, or nothing |
| LegacySizes.EntriesOfListed | old/copy_bios_rom_files.rb:756-761 | the directory list has one entry per listed system, in order, each the local ROMs directory quoted from the entry on |
| LegacySizes.SizesListing | old/copy_bios_rom_files.rb:753-761 | the report lists the given systems that have a ROMs entry, as often as they are given and no others, sorted by name |
| LegacySizes.SizesCommandNoneIff | old/copy_bios_rom_files.rb:763-768 | nothing is run exactly when no given system has a ROMs entry; otherwise `du` runs on `nas-01` |
| LegacyCli.LevelSystems | old/copy_bios_rom_files.rb:860-869 | an absent or empty level selects no systems, and any other level is rejected exactly when it is not valid |
| LegacyCli.LevelSystemsEmpty | old/copy_bios_rom_files.rb:800-806 | whatever level is given, the systems selected are none |
| LegacyCli.Run | old/copy_bios_rom_files.rb:825-857 | `run` returns 0 or 1. It prints usage and returns 0 for no arguments or `-h`/`--help`. It rejects an invalid level with code 1 before anything else, then runs the sizes report, rejects an unknown frontend with code 1, or copies. As configured it runs no command and no `du` |
| Versions.BatoceraTablesAgree | old/copy_bios_rom_files.rb:169-216 | both versions' Batocera tables have the same keys and differ only at the Nintendo 3DS entry |
| Versions.EmuDeckTablesAgree | old/copy_bios_rom_files.rb:257-299 | both versions' EmuDeck tables are equal |
| Versions.EsDeTablesAgree | old/copy_bios_rom_files.rb:334-377 | both versions' ES-DE tables have the same keys and differ only at Famicom Disk System and GameCube |
| Versions.MinUITablesAgree | old/copy_bios_rom_files.rb:412-439 | both versions' MinUI BIOS tables are equal; the ROMs tables have the same keys and differ only at Pokémon mini |
| Versions.MuOSTablesAgree | old/copy_bios_rom_files.rb:476-494 | both versions' muOS tables are equal |
| Versions.OnionTablesAgree | old/copy_bios_rom_files.rb:560-595 | both versions' Onion tables have the same keys and differ only at PICO-8 |
| Versions.SpruceTablesAgree | old/copy_bios_rom_files.rb:629-664 | both versions' Spruce tables have the same keys and differ only at MAME 2003 Plus |
| Versions.TablesHaveSameKeys | old/copy_bios_rom_files.rb:152-154 | every frontend's ROMs table has an entry for the same systems in both versions |
| Versions.SameSupportedSystems | old/copy_bios_rom_files.rb:152-154 | every frontend supports the same systems in both versions |
| Versions.SameRomsDirectory | old/copy_bios_rom_files.rb:230-235 | under a non-empty root without a trailing slash, a frontend that lives under one root has the same ROMs directories in both versions wherever their entries agree |
| Versions.SameBiosDirectory | old/copy_bios_rom_files.rb:226-228 | under a non-empty root without a trailing slash, a frontend that lives under one root, other than MinUI, has the same BIOS directory in both versions |
| Versions.LevelWordsDiffer | old/copy_bios_rom_files.rb:808-811 | "level3" is a level only in the earlier version, where it selects nothing, while the current level 3 has 19 systems |

## Left out

- Running `rsync`, `ssh` and `du` (`subprocess.run`, Ruby `system`) is left out. Commands are recorded in `executed` and `Exit.ssh`, and their exit statuses are ignored, as both versions ignore them.
- Loading `source_config.yaml` with PyYAML is left out. The `SourceConfig` fields are inputs. Mapping YAML keys to systems (`System(k)`) is not part of this model.
- argparse is left out: the parsed arguments are an input. The text of the usage message and of `--help` is not modelled. Printed lines are data constructors, so their exact wording is not reproduced.
- Paths.Join: `PurePosixPath(base) / seg` is modelled for a plain segment, a "." segment and an empty base, with the trailing slashes of the base dropped. This covers every entry of the frontends' tables (Frontends.RomsEntriesArePlain, Frontends.MinUIBiosEntriesArePlain). Other pathlib normalisation is not modelled:
  - a segment ending in "/" keeps its slash here, where pathlib drops it: a `bios_subdirs` entry "psx/" gives the BIOS source "…/psx//" here and "…/psx/" in the source;
  - a segment starting with "/" is appended here, where pathlib lets it replace the base (and lose its "host:" prefix);
  - "//" and "." components inside a base or a segment are kept here, where pathlib collapses them;
  - a base of exactly "//" becomes "/" here, where pathlib keeps "//".
- Copier.BiosStepShape, Copier.RomStepShape, Sizes.EntriesOfListed: the `bios_subdirs` and `roms_subdirs` entries of the loaded configuration are not constrained. For an entry that is not a plain name, these members describe the joined text of Paths.Join, which differs from pathlib's result in the ways listed above.
- Strings.Lower: `str.lower` and `String#downcase` are modelled for ASCII letters only; other characters are left unchanged.
- Frontends.SupportedSystems: `supported_systems` is a list in table order. It is modelled as a set, so the order is not captured.
- The lookup tables are `match` functions from a system to an optional entry, not `map` constants. Lookup behaviour is the same, including Python's treatment of an empty entry as missing. The entries are copied from the source as written, including the mis-encoded "Pokémon mini" entry of the current MinUI table.
- Copier.View: the copier sees a frontend through its name, BIOS directories and ROMs directories (a `FrontendView`), not as an object.
- LegacyCopier.FileCopier: the Ruby copier reads the `SourceConfig` module directly. Here it reads a `library` field, which the CLI sets to that module's value.
- Sorting.SortBySorted: the model sorts by insertion and proves the result sorted and a permutation. It does not prove stability of `sorted` and `sort_by` for equal keys, which cannot arise because system values are distinct.
- LegacyFrontends.RomsDirectory: EmuDeck's default root "/run/media/SDCARDNAME/" ends with a slash, so its interpolated paths contain "//". This is modelled as written. The layout lemmas state "one slash apart" only for roots without a trailing slash.
- LegacyCli.Run: Ruby's third argument `ROOT_DIR` is read and ignored, as in the source. Frontends are always built with their default directories.
- The sizes report's `du` output, the filesystem and the contents of the directories are not modelled.
