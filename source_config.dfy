/** `SourceConfig` of the current version: where the BIOS, ROM and art
    libraries live, whether they are reached over SSH, and the per-system
    subdirectory names under them. Loading it from YAML is not modelled; its
    fields are inputs. */
module SourceConfigs {
  import opened Systems
  import opened Wrappers

  datatype SourceConfig = SourceConfig(
    sourceBiosDir: string,
    sourceRomsDir: string,
    sourceBatoceraArtDir: string,
    remoteHostname: string,
    remoteSource: bool,
    biosSubdirs: map<System, string>,
    romsSubdirs: map<System, string>)
  {
    /** `_prefix`: the path as rsync must be given it, "host:path" for a
        remote library and the path itself otherwise. */
    function Prefix(path: string): string {
      if remoteSource then remoteHostname + ":" + path else path
    }

    function BiosDir(): string {
      Prefix(sourceBiosDir)
    }

    function RomsDir(): string {
      Prefix(sourceRomsDir)
    }

    function BatoceraArtDir(): string {
      Prefix(sourceBatoceraArtDir)
    }

    /** `bios_subdirs.get(s)`. */
    function BiosSubdir(s: System): Option<string> {
      if s in biosSubdirs then Some(biosSubdirs[s]) else None
    }

    /** `roms_subdirs.get(s)`. */
    function RomsSubdir(s: System): Option<string> {
      if s in romsSubdirs then Some(romsSubdirs[s]) else None
    }
  }

  /** rsync's reading of a path argument: a colon before the first slash
      names a remote host. */
  predicate NamesRemoteHost(p: string) {
    if p == [] then false
    else if p[0] == ':' then true
    else if p[0] == '/' then false
    else NamesRemoteHost(p[1..])
  }

  lemma {:induction false} NamesRemoteHostAfterHost(host: string, path: string)
    requires forall i :: 0 <= i < |host| ==> host[i] != ':' && host[i] != '/'
    ensures NamesRemoteHost(host + ":" + path)
  {
    if host != [] {
      assert (host + ":" + path)[1..] == host[1..] + ":" + path;
      NamesRemoteHostAfterHost(host[1..], path);
    }
  }

  /** Prefixing sends rsync to the remote host exactly when the source is
      remote, for any host name without ':' or '/' and any library path
      that rsync would itself read as local. */
  lemma PrefixIsRemoteExactlyWhenRemoteSource(cfg: SourceConfig, path: string)
    requires forall i :: 0 <= i < |cfg.remoteHostname| ==>
      cfg.remoteHostname[i] != ':' && cfg.remoteHostname[i] != '/'
    requires !NamesRemoteHost(path)
    ensures NamesRemoteHost(cfg.Prefix(path)) <==> cfg.remoteSource
  {
    if cfg.remoteSource {
      NamesRemoteHostAfterHost(cfg.remoteHostname, path);
    }
  }

  /** The three library directories all go through `Prefix`: "host:dir" for a
      remote source, the configured directory unchanged otherwise. */
  lemma LibraryDirectoriesPrefixed(cfg: SourceConfig)
    ensures cfg.remoteSource ==>
      && cfg.BiosDir() == cfg.remoteHostname + ":" + cfg.sourceBiosDir
      && cfg.RomsDir() == cfg.remoteHostname + ":" + cfg.sourceRomsDir
      && cfg.BatoceraArtDir() == cfg.remoteHostname + ":" + cfg.sourceBatoceraArtDir
    ensures !cfg.remoteSource ==>
      && cfg.BiosDir() == cfg.sourceBiosDir
      && cfg.RomsDir() == cfg.sourceRomsDir
      && cfg.BatoceraArtDir() == cfg.sourceBatoceraArtDir
  {
  }
}
