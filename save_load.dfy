/** Persistence of the application's `DataConfig` as a YAML file: where the
    file lives, and how saving and loading degrade when something fails.
    Models src/save_load.rs. The file system is a map from paths to file
    contents plus a set of directories; the YAML serialiser and parser are
    function values passed in a `Codec`. */
module SaveLoad {

  datatype Option<T> = None | Some(value: T)

  /** A file-system path as its list of components (`PathBuf`). */
  type Path = seq<string>

  /** The persisted document: a single `f32` field, modelled as a real. */
  datatype DataConfig = DataConfig(data: real)

  /** What `load` returns when there is nothing usable on disk. */
  const DefaultConfig: DataConfig := DataConfig(3.0)

  /** The application's directory under the per-user configuration directory. */
  const AppDirName: string := "egui-app"

  /** The name of the configuration file. */
  const FileName: string := "data.yaml"

  /** `PathBuf::from("data.yaml")`: the file in the working directory. */
  const FallbackPath: Path := [FileName]

  /** The YAML serialiser (`serde_yaml::to_string`) and parser
      (`serde_yaml::from_str`); either may fail. */
  datatype Codec = Codec(toYaml: DataConfig -> Option<string>, fromYaml: string -> Option<DataConfig>)

  /** The parser reads back whatever the serialiser produced. */
  ghost predicate RoundTrips(codec: Codec)
  {
    forall d :: codec.toYaml(d).Some? ==> codec.fromYaml(codec.toYaml(d).value) == Some(d)
  }

  /** The non-empty prefixes of `p`: the directories `create_dir_all(p)` makes. */
  function Ancestors(p: Path): (r: set<Path>)
    ensures forall q :: q in r ==> 0 < |q| <= |p| && q == p[..|q|]
  {
    set k | 1 <= k <= |p| :: p[..k]
  }

  function Parent(p: Path): (r: Path)
    requires |p| > 0
    ensures |r| == |p| - 1 && r + [p[|p| - 1]] == p
  {
    p[..|p| - 1]
  }

  /** The state of the file system the application sees. Permissions are
      fixed: a path in `denied` can be neither read, written nor created.
      `configDir` is what `dirs::config_dir()` reports. */
  class FileSystem {
    var files: map<Path, string>
    var dirs: set<Path>
    const denied: set<Path>
    const configDir: Option<Path>

    /** No path is both a file and a directory. */
    ghost predicate Valid()
      reads this
    {
      files.Keys !! dirs
    }

    constructor (files: map<Path, string>, dirs: set<Path>, denied: set<Path>, configDir: Option<Path>)
      requires files.Keys !! dirs
      ensures Valid()
      ensures this.files == files && this.dirs == dirs
      ensures this.denied == denied && this.configDir == configDir
    {
      this.files := files;
      this.dirs := dirs;
      this.denied := denied;
      this.configDir := configDir;
    }

    /** `fs::read_to_string`: fails on a missing or forbidden file. */
    function Read(p: Path): (r: Option<string>)
      reads this
      ensures r.Some? <==> p in files && p !in denied
      ensures r.Some? ==> r.value == files[p]
    {
      if p in files && p !in denied then Some(files[p]) else None
    }

    /** Whether `fs::create_dir_all(p)` succeeds: no prefix of `p` is a file,
        and every prefix that is not yet a directory may be created. */
    predicate CanCreateDirAll(p: Path)
      reads this
    {
      forall q :: q in Ancestors(p) ==> q !in files && (q in dirs || q !in denied)
    }

    /** `fs::create_dir_all`. */
    method CreateDirAll(p: Path) returns (ok: bool)
      requires Valid()
      modifies this`dirs
      ensures Valid()
      ensures ok == old(CanCreateDirAll(p))
      ensures dirs == if ok then old(dirs) + Ancestors(p) else old(dirs)
    {
      ok := CanCreateDirAll(p);
      if ok {
        dirs := dirs + Ancestors(p);
      }
    }

    /** Whether `fs::write(p, _)` succeeds: `p` is allowed, is not a
        directory, and its parent directory exists (a one-component path
        lies in the working directory). */
    predicate CanWrite(p: Path)
      reads this
    {
      |p| > 0 && p !in denied && p !in dirs && (|p| == 1 || Parent(p) in dirs)
    }

    /** `fs::write`: replaces the whole content of the file on success. */
    method Write(p: Path, content: string) returns (ok: bool)
      requires Valid()
      modifies this`files
      ensures Valid()
      ensures ok == CanWrite(p)
      ensures files == if ok then old(files)[p := content] else old(files)
    {
      ok := CanWrite(p);
      if ok {
        files := files[p := content];
      }
    }

    /** The application directory, when a configuration directory exists. */
    function AppDir(): (r: Option<Path>)
      reads this
      ensures r.Some? <==> configDir.Some?
      ensures r.Some? ==> r.value == configDir.value + [AppDirName]
    {
      match configDir
      case None => None
      case Some(c) => Some(c + [AppDirName])
    }

    /** What `get_config_path` returns in this state. */
    function ConfigPath(): (r: Option<Path>)
      reads this
      ensures r.Some? ==> |r.value| > 0 && r.value[|r.value| - 1] == FileName
    {
      match AppDir()
      case None => None
      case Some(d) => if CanCreateDirAll(d) then Some(d + [FileName]) else None
    }

    /** The directories after `get_config_path` has run in this state. */
    function DirsAfterConfigPath(): (r: set<Path>)
      reads this
      ensures dirs <= r
    {
      match AppDir()
      case None => dirs
      case Some(d) => if CanCreateDirAll(d) then dirs + Ancestors(d) else dirs
    }
  }

  /** `get_config_path`: `<config dir>/egui-app/data.yaml`, creating the
      directory on the way, or None when there is no configuration directory
      or it cannot be created. */
  method GetConfigPath(fs: FileSystem) returns (r: Option<Path>)
    requires fs.Valid()
    modifies fs`dirs
    ensures fs.Valid()
    ensures r == old(fs.ConfigPath())
    ensures r.None? <==> fs.configDir.None? || !old(fs.CanCreateDirAll(fs.configDir.value + [AppDirName]))
    ensures r.Some? ==> r.value == fs.configDir.value + [AppDirName, FileName]
    ensures r.Some? ==> Parent(r.value) in fs.dirs
    ensures fs.dirs == old(fs.DirsAfterConfigPath())
    ensures fs.files == old(fs.files)
  {
    if fs.configDir.None? {
      return None;
    }
    var path := fs.configDir.value;
    path := path + [AppDirName];
    var ok := fs.CreateDirAll(path);
    if !ok {
      return None;
    }
    assert path in Ancestors(path) by {
      assert path[..|path|] == path;
    }
    path := path + [FileName];
    assert Parent(path) == fs.configDir.value + [AppDirName];
    return Some(path);
  }

  /** The path `save` and `load` use: an explicit path wins; otherwise the
      configuration path; otherwise `data.yaml` in the working directory. */
  function ChoosePath(explicit: Option<Path>, configPath: Option<Path>): (p: Path)
    ensures explicit.Some? ==> p == explicit.value
    ensures explicit.None? && configPath.Some? ==> p == configPath.value
    ensures explicit.None? && configPath.None? ==> p == FallbackPath
  {
    match explicit
    case Some(q) => q
    case None =>
      match configPath
      case Some(q) => q
      case None => FallbackPath
  }

  /** `path.unwrap_or_else(|| get_config_path().unwrap_or_else(|| "data.yaml"))`:
      the configuration path is looked up only when no path is given. */
  method ResolvePath(fs: FileSystem, explicit: Option<Path>) returns (p: Path)
    requires fs.Valid()
    modifies fs`dirs
    ensures fs.Valid()
    ensures p == ChoosePath(explicit, old(fs.ConfigPath()))
    ensures fs.dirs == if explicit.Some? then old(fs.dirs) else old(fs.DirsAfterConfigPath())
  {
    match explicit {
      case Some(q) =>
        p := q;
      case None =>
        var c := GetConfigPath(fs);
        p := if c.Some? then c.value else FallbackPath;
    }
  }

  /** What `load` makes of the outcome of reading the file: the parsed
      configuration, or the default when the file could not be read or did
      not parse. */
  function LoadOutcome(read: Option<string>, codec: Codec): (c: DataConfig)
    ensures read.None? ==> c == DefaultConfig
    ensures read.Some? && codec.fromYaml(read.value).None? ==> c == DefaultConfig
    ensures read.Some? && codec.fromYaml(read.value).Some? ==> c == codec.fromYaml(read.value).value
    ensures c == DefaultConfig || (read.Some? && codec.fromYaml(read.value) == Some(c))
  {
    match read
    case None => DefaultConfig
    case Some(text) =>
      match codec.fromYaml(text)
      case Some(d) => d
      case None => DefaultConfig
  }

  /** Reading back what the serialiser wrote gives the saved configuration. */
  lemma LoadOfSavedText(config: DataConfig, codec: Codec)
    requires RoundTrips(codec)
    requires codec.toYaml(config).Some?
    ensures LoadOutcome(Some(codec.toYaml(config).value), codec) == config
  {
  }

  /** `DataConfig::load`. */
  method Load(fs: FileSystem, codec: Codec, explicit: Option<Path>) returns (c: DataConfig)
    requires fs.Valid()
    modifies fs`dirs
    ensures fs.Valid()
    ensures fs.files == old(fs.files)
    ensures fs.dirs == if explicit.Some? then old(fs.dirs) else old(fs.DirsAfterConfigPath())
    ensures c == LoadOutcome(fs.Read(ChoosePath(explicit, old(fs.ConfigPath()))), codec)
    ensures explicit.Some? ==> c == LoadOutcome(fs.Read(explicit.value), codec)
  {
    var path := ResolvePath(fs, explicit);
    var content := fs.Read(path);
    c := LoadOutcome(content, codec);
  }

  /** `DataConfig::save`: returns nothing; on a serialiser or write failure
      the files are left as they were (the directory lookup may still have
      created the application directory). */
  method Save(config: DataConfig, fs: FileSystem, codec: Codec, explicit: Option<Path>)
    requires fs.Valid()
    modifies fs`dirs, fs`files
    ensures fs.Valid()
    ensures fs.dirs == if explicit.Some? then old(fs.dirs) else old(fs.DirsAfterConfigPath())
    ensures var p := ChoosePath(explicit, old(fs.ConfigPath()));
            fs.files == if codec.toYaml(config).Some? && fs.CanWrite(p)
                        then old(fs.files)[p := codec.toYaml(config).value]
                        else old(fs.files)
    ensures codec.toYaml(config).None? ==> fs.files == old(fs.files)
    ensures explicit.Some? ==>
              fs.files == if codec.toYaml(config).Some? && fs.CanWrite(explicit.value)
                          then old(fs.files)[explicit.value := codec.toYaml(config).value]
                          else old(fs.files)
  {
    var path := ResolvePath(fs, explicit);
    match codec.toYaml(config) {
      case Some(yaml) =>
        var ok := fs.Write(path, yaml);
      case None =>
    }
  }

  /** Saving a configuration and loading it from the same place gives it
      back, when the serialiser succeeds and the write is allowed. */
  method SaveThenLoad(config: DataConfig, fs: FileSystem, codec: Codec, explicit: Option<Path>)
    returns (loaded: DataConfig)
    requires fs.Valid()
    requires RoundTrips(codec)
    modifies fs`dirs, fs`files
    ensures fs.Valid()
    ensures fs.dirs == if explicit.Some? then old(fs.dirs) else old(fs.DirsAfterConfigPath())
    ensures var p := ChoosePath(explicit, old(fs.ConfigPath()));
            fs.files == if codec.toYaml(config).Some? && fs.CanWrite(p)
                        then old(fs.files)[p := codec.toYaml(config).value]
                        else old(fs.files)
    ensures codec.toYaml(config).Some? && fs.CanWrite(ChoosePath(explicit, old(fs.ConfigPath())))
            ==> loaded == config
  {
    ghost var p := ChoosePath(explicit, fs.ConfigPath());
    Save(config, fs, codec, explicit);
    ghost var written := codec.toYaml(config).Some? && fs.CanWrite(p);
    if explicit.None? {
      assert fs.ConfigPath() == old(fs.ConfigPath());
    }
    loaded := Load(fs, codec, explicit);
    if written {
      LoadOfSavedText(config, codec);
    }
  }
}
