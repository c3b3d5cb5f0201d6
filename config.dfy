/**
 * The configuration of the collection manager: where the database, its backups and the
 * raw card documents live, its JSON form, and the path derivation of the
 * `setup_database_path` command. The data directory, the home and working directories
 * and the outcome of creating and probing directories are parameters.
 */
module Config {
  import opened Wrappers
  import opened Paths

  datatype Config = Config(dbPath: Path, backupsPath: Path, rawDataPath: Path)

  /** Backups and raw card documents sit beside the database file. */
  predicate Colocated(c: Config)
  {
    c.dbPath.parts != [] &&
    c.backupsPath == Slash(Parent(c.dbPath), "backups") &&
    c.rawDataPath == Slash(Parent(c.dbPath), "raw_data")
  }

  predicate ConfigWellFormed(c: Config)
  {
    WellFormed(c.dbPath) && WellFormed(c.backupsPath) && WellFormed(c.rawDataPath)
  }

  /** The three names the configuration puts under a directory are path components. */
  lemma FixedNamesArePart()
    ensures IsPart("pokedex.db") && IsPart("backups") && IsPart("raw_data")
  {
    assert forall k :: 0 <= k < |"pokedex.db"| ==> "pokedex.db"[k] != '/';
    assert forall k :: 0 <= k < |"backups"| ==> "backups"[k] != '/';
    assert forall k :: 0 <= k < |"raw_data"| ==> "raw_data"[k] != '/';
  }

  /** `Config.default()` for the data directory `dataDir`. */
  function Default(dataDir: Path): (c: Config)
    requires WellFormed(dataDir)
    ensures Colocated(c) && ConfigWellFormed(c)
    ensures Name(c.dbPath) == "pokedex.db" && Name(c.backupsPath) == "backups" && Name(c.rawDataPath) == "raw_data"
  {
    Config(Slash(dataDir, "pokedex.db"), Slash(dataDir, "backups"), Slash(dataDir, "raw_data"))
  }

  /** `to_dict`: the three paths as text. */
  function ToDict(c: Config): (d: map<string, string>)
    ensures d.Keys == {"db_path", "backups_path", "raw_data_path"}
    ensures d["db_path"] == Str(c.dbPath) && d["backups_path"] == Str(c.backupsPath)
    ensures d["raw_data_path"] == Str(c.rawDataPath)
  {
    map["db_path" := Str(c.dbPath), "backups_path" := Str(c.backupsPath), "raw_data_path" := Str(c.rawDataPath)]
  }

  /**
   * `from_dict`: `db_path` and `backups_path` are required; a missing or empty
   * `raw_data_path` (a file written before that key existed) defaults to `raw_data`
   * beside the database.
   */
  function FromDict(d: map<string, string>): (r: Result<Config>)
    ensures r.Ok? <==> "db_path" in d && "backups_path" in d
    ensures "db_path" !in d ==> r == Err("'db_path'")
    ensures r.Ok? ==> r.value.dbPath == Parse(d["db_path"]) && r.value.backupsPath == Parse(d["backups_path"])
    ensures r.Ok? && "raw_data_path" in d && d["raw_data_path"] != "" ==>
      r.value.rawDataPath == Parse(d["raw_data_path"])
    ensures r.Ok? && ("raw_data_path" !in d || d["raw_data_path"] == "") ==>
      r.value.rawDataPath == Slash(Parent(Parse(d["db_path"])), "raw_data")
  {
    if "db_path" !in d then Err("'db_path'")
    else if "backups_path" !in d then Err("'backups_path'")
    else
      var dbPath := Parse(d["db_path"]);
      var raw :=
        if "raw_data_path" in d && d["raw_data_path"] != "" then Parse(d["raw_data_path"])
        else Slash(Parent(dbPath), "raw_data");
      Ok(Config(dbPath, Parse(d["backups_path"]), raw))
  }

  /** Saving a configuration and loading it back gives the same configuration. */
  lemma FromDictToDict(c: Config)
    requires ConfigWellFormed(c)
    ensures FromDict(ToDict(c)) == Ok(c)
  {
    ParseStr(c.dbPath);
    ParseStr(c.backupsPath);
    ParseStr(c.rawDataPath);
    var d := ToDict(c);
    if Str(c.rawDataPath) == "" {
      assert c.rawDataPath.absolute || c.rawDataPath.parts != [];
      JoinNonEmpty(c.rawDataPath);
    }
  }

  lemma JoinNonEmpty(p: Path)
    requires WellFormed(p) && !p.absolute && p.parts != []
    ensures Str(p) != ""
  {
    JoinFirst(p.parts);
  }

  /** A file written before `raw_data_path` existed reads back colocated. */
  lemma FromOldDict(c: Config)
    requires ConfigWellFormed(c) && Colocated(c)
    ensures FromDict(map k | k in ToDict(c) && k != "raw_data_path" :: ToDict(c)[k]) == Ok(c)
  {
    ParseStr(c.dbPath);
    ParseStr(c.backupsPath);
  }

  /**
   * What `setup_database_path` leaves behind: the configuration it returns or the error it
   * raises, the directories it creates (each with its missing parents) in order, and the
   * configuration it saves, as the JSON object written to the configuration file.
   */
  datatype Setup = Setup(result: Result<Config>, made: seq<Path>, saved: Option<map<string, string>>)

  /**
   * `setup_database_path`: `home` and `users` are the home directories `expanduser()`
   * finds, `isDir` tells which paths are existing directories, `canCreate` whether
   * `mkdir(parents=True)` succeeds on a directory and `writable` whether the directory
   * is writable.
   */
  function SetupDatabasePath(dbPath: string, home: Path, users: string -> Option<Path>, cwd: Path,
                             isDir: Path -> bool, canCreate: Path -> bool, writable: Path -> bool): (r: Setup)
    requires HomesWellFormed(home, users) && WellFormed(cwd)
    ensures Resolve(dbPath, home, users, cwd).Err? ==> r == Setup(Err(NoHome), [], None)
    ensures Resolve(dbPath, home, users, cwd).Ok? ==>
      var path := Resolve(dbPath, home, users, cwd).value;
      var folder := isDir(path) || Suffix(path) == "";
      var dbDir := if folder then path else Parent(path);
      && (r.result.Ok? <==> canCreate(dbDir) && writable(dbDir))
      && (!canCreate(dbDir) ==> r.result == Err("Cannot create directory: " + Str(dbDir)) && r.made == [])
      && (canCreate(dbDir) && !writable(dbDir) ==> r.result == Err("Directory not writable: " + Str(dbDir)) && r.made == [dbDir])
      && (r.result.Err? ==> r.saved.None?)
      && (r.result.Ok? ==> r.result.value.dbPath == (if folder then Slash(path, "pokedex.db") else path))
      && (r.result.Ok? ==> r.result.value.backupsPath == Slash(dbDir, "backups") && r.result.value.rawDataPath == Slash(dbDir, "raw_data"))
      && (r.result.Ok? ==> r.made == [dbDir, r.result.value.backupsPath, r.result.value.rawDataPath])
      && (r.result.Ok? ==> r.saved == Some(ToDict(r.result.value)))
  {
    match Resolve(dbPath, home, users, cwd)
    case Err(e) => Setup(Err(e), [], None)
    case Ok(path) => SetupAt(path, isDir, canCreate, writable)
  }

  /** The steps of `setup_database_path` once the given text is resolved to `path`. */
  function SetupAt(path: Path, isDir: Path -> bool, canCreate: Path -> bool, writable: Path -> bool): (r: Setup)
    ensures var folder := isDir(path) || Suffix(path) == "";
      var dbDir := if folder then path else Parent(path);
      && (r.result.Ok? <==> canCreate(dbDir) && writable(dbDir))
      && (!canCreate(dbDir) ==> r.result == Err("Cannot create directory: " + Str(dbDir)) && r.made == [])
      && (canCreate(dbDir) && !writable(dbDir) ==> r.result == Err("Directory not writable: " + Str(dbDir)) && r.made == [dbDir])
      && (r.result.Err? ==> r.saved.None?)
      && (r.result.Ok? ==> r.result.value.dbPath == (if folder then Slash(path, "pokedex.db") else path))
      && (r.result.Ok? ==> r.result.value.backupsPath == Slash(dbDir, "backups") && r.result.value.rawDataPath == Slash(dbDir, "raw_data"))
      && (r.result.Ok? ==> r.made == [dbDir, r.result.value.backupsPath, r.result.value.rawDataPath])
      && (r.result.Ok? ==> r.saved == Some(ToDict(r.result.value)))
  {
    FixedNamesArePart();
    var folder := isDir(path) || Suffix(path) == "";
    var dbDir := if folder then path else Parent(path);
    var dbFile := if folder then Slash(path, "pokedex.db") else path;
    if !canCreate(dbDir) then Setup(Err("Cannot create directory: " + Str(dbDir)), [], None)
    else if !writable(dbDir) then Setup(Err("Directory not writable: " + Str(dbDir)), [dbDir], None)
    else
      var c := Config(dbFile, Slash(dbDir, "backups"), Slash(dbDir, "raw_data"));
      Setup(Ok(c), [dbDir, c.backupsPath, c.rawDataPath], Some(ToDict(c)))
  }

  /** Whatever path is given, the configuration `setup_database_path` derives is colocated and well formed. */
  lemma SetupColocated(dbPath: string, home: Path, users: string -> Option<Path>, cwd: Path,
                       isDir: Path -> bool, canCreate: Path -> bool, writable: Path -> bool)
    requires HomesWellFormed(home, users) && WellFormed(cwd)
    requires SetupDatabasePath(dbPath, home, users, cwd, isDir, canCreate, writable).result.Ok?
    ensures var c := SetupDatabasePath(dbPath, home, users, cwd, isDir, canCreate, writable).result.value;
      Colocated(c) && ConfigWellFormed(c)
  {
    var path := Resolve(dbPath, home, users, cwd).value;
    if !(isDir(path) || Suffix(path) == "") {
      assert Name(path) != "";
      SlashParentName(path);
    }
  }

  /** The configuration file `setup_database_path` saves loads back as the configuration it returns. */
  lemma SetupSavesLoadable(dbPath: string, home: Path, users: string -> Option<Path>, cwd: Path,
                           isDir: Path -> bool, canCreate: Path -> bool, writable: Path -> bool)
    requires HomesWellFormed(home, users) && WellFormed(cwd)
    ensures var r := SetupDatabasePath(dbPath, home, users, cwd, isDir, canCreate, writable);
      r.saved.Some? <==> r.result.Ok?
    ensures var r := SetupDatabasePath(dbPath, home, users, cwd, isDir, canCreate, writable);
      r.saved.Some? ==> FromDict(r.saved.value) == r.result
  {
    var r := SetupDatabasePath(dbPath, home, users, cwd, isDir, canCreate, writable);
    if r.result.Ok? {
      SetupColocated(dbPath, home, users, cwd, isDir, canCreate, writable);
      FromDictToDict(r.result.value);
    }
  }
}
