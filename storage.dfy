/**
 The snapshot store (storage.py): a label-to-`Game` table kept in a YAML
 file. The file system is modelled as a map from path to the state of the
 file at that path; the YAML text itself is abstracted to that state.
 */
module Storage {
  import opened Values
  import Fetch

  /** What opening and loading one path can find. */
  datatype StoreFile =
    | Missing                                   // open() raises FileNotFoundError
    | Inaccessible                              // open() raises another OSError (a directory, no permission)
    | EmptyDocument                             // yaml.safe_load gives None
    | Malformed                                 // yaml.safe_load raises YAMLError
    | NotAMapping                               // a well-formed list or scalar, which has no `.items()`
    | Document(games: map<string, Fetch.Game>)  // a label-to-game table

  /** The path `get_all` reads as written, whatever the repository's `filename`. */
  const ReadPath := "games.yml"

  /** The exception `get_all` lets escape when it reads `f`: only
      FileNotFoundError and YAMLError are caught, so another OSError from
      `open` and the AttributeError of `.items()` on a list or scalar
      propagate. */
  function ReadError(f: StoreFile): (error: Option<string>)
    ensures error.None? <==> f.Missing? || f.EmptyDocument? || f.Malformed? || f.Document?
    ensures error.Some? ==> error.value == "OSError" || error.value == "AttributeError"
  {
    match f
    case Inaccessible => Some("OSError")
    case NotAMapping => Some("AttributeError")
    case _ => None
  }

  /** The table `get_all` returns for `f` when it returns at all: the file's
      table if it holds one, otherwise (missing, empty or malformed) the
      empty table. */
  function Load(f: StoreFile): (games: map<string, Fetch.Game>)
    ensures f.Document? ==> games == f.games
    ensures games != map[] ==> f.Document?
  {
    if f.Document? then f.games else map[]
  }

  class GamesRepository {
    /** The dataclass field: the path `add` writes to. */
    const filename: string
    /** The path `get_all` reads: `"games.yml"` for the repository as
        written, `filename` for one built with `ReadingOwnFile`. */
    const readPath: string
    /** The file system: the state of each path; a path not in the map is missing. */
    var files: map<string, StoreFile>

    /** `GamesRepository(filename)` as written. */
    constructor (filename: string, files: map<string, StoreFile>)
      ensures this.filename == filename && this.readPath == ReadPath && this.files == files
    {
      this.filename := filename;
      this.readPath := ReadPath;
      this.files := files;
    }

    /** The repository as evidently intended: `get_all` reads the file `add`
        writes. */
    constructor ReadingOwnFile(filename: string, files: map<string, StoreFile>)
      ensures this.filename == filename && this.readPath == filename && this.files == files
    {
      this.filename := filename;
      this.readPath := filename;
      this.files := files;
    }

    function FileAt(path: string): StoreFile
      reads this
    {
      if path in files then files[path] else Missing
    }

    /** The table `get_all` returns in the current state, when it returns. */
    function Stored(): map<string, Fetch.Game>
      reads this
    {
      Load(FileAt(readPath))
    }

    /** Whether `get_all` raises in the current state. */
    predicate ReadFails()
      reads this
    {
      ReadError(FileAt(readPath)).Some?
    }

    /** `get_all`: read the file at `readPath`. A missing file, an empty
        document and a malformed document all give the empty table; an
        inaccessible path or a document that is not a mapping raises. */
    method GetAll() returns (games: map<string, Fetch.Game>, error: Option<string>)
      ensures error == ReadError(FileAt(readPath))
      ensures error.None? ==> games == Stored()
    {
      games := map[];
      error := None;
      match FileAt(readPath)
      case Missing =>
      case Inaccessible =>
        error := Some("OSError");
      case EmptyDocument =>
      case Malformed =>
      case NotAMapping =>
        error := Some("AttributeError");
      case Document(table) =>
        games := table;
    }

    /** `add` as it is meant to work, with every game serialisable: read the
        table, set `gameLabel`, rewrite the whole file at `filename`. An
        exception from the read escapes before anything is written; so does
        one from opening `filename` for writing. The added game shows up in
        `get_all` only when `filename` is the path it reads. */
    method Add(gameLabel: string, game: Fetch.Game) returns (error: Option<string>)
      modifies this
      ensures old(ReadFails()) ==> error == old(ReadError(FileAt(readPath))) && files == old(files)
      ensures !old(ReadFails()) && old(FileAt(filename)).Inaccessible? ==>
        error == Some("OSError") && files == old(files)
      ensures !old(ReadFails()) && !old(FileAt(filename)).Inaccessible? ==>
        error == None && files == old(files)[filename := Document(old(Stored())[gameLabel := game])]
      ensures error.None? && filename == readPath ==> gameLabel in Stored() && Stored()[gameLabel] == game
      ensures error.None? && filename == readPath ==>
        forall other :: other in old(Stored()) && other != gameLabel ==>
          other in Stored() && Stored()[other] == old(Stored())[other]
      ensures error.None? && filename == readPath ==> Stored().Keys == old(Stored()).Keys + {gameLabel}
      ensures error.None? && filename == readPath && !old(FileAt(readPath)).Document? ==>
        Stored() == map[gameLabel := game]
      ensures filename != readPath ==> Stored() == old(Stored())
    {
      var games, readError := GetAll();
      if readError.Some? {
        return readError;
      }
      games := games[gameLabel := game];
      if FileAt(filename).Inaccessible? {
        return Some("OSError");
      }
      files := files[filename := Document(games)];
      error := None;
    }

    /** `add` as written: once the read succeeds, `open(self.filename, "w")`
        truncates the file, then serialising calls `game.as_dict()`, which
        fetch.py's `Game` does not define, so the call raises AttributeError
        and leaves the file empty. Whatever was stored there is lost. */
    method AddAsWritten(gameLabel: string, game: Fetch.Game) returns (error: Option<string>)
      modifies this
      ensures old(ReadFails()) ==> error == old(ReadError(FileAt(readPath))) && files == old(files)
      ensures !old(ReadFails()) && old(FileAt(filename)).Inaccessible? ==>
        error == Some("OSError") && files == old(files)
      ensures !old(ReadFails()) && !old(FileAt(filename)).Inaccessible? ==>
        error == Some("AttributeError") && files == old(files)[filename := EmptyDocument]
      ensures error.Some?
      ensures filename == readPath && !old(ReadFails()) ==> Stored() == map[]
      ensures filename != readPath ==> Stored() == old(Stored())
    {
      var games, readError := GetAll();
      if readError.Some? {
        return readError;
      }
      games := games[gameLabel := game];
      if FileAt(filename).Inaccessible? {
        return Some("OSError");
      }
      files := files[filename := EmptyDocument];
      error := Some("AttributeError");
    }
  }

  /** tests/test_storage.py with the repository on "games.yml": one game
      added to an empty store reads back as the only entry. */
  method StoreOneGame(game: Fetch.Game) returns (error: Option<string>, retrieved: map<string, Fetch.Game>)
    ensures error == None
    ensures |retrieved| == 1
    ensures "lotto" in retrieved && retrieved["lotto"] == game
  {
    var repo := new GamesRepository(ReadPath, map[]);
    error := repo.Add("lotto", game);
    var readError;
    retrieved, readError := repo.GetAll();
    assert retrieved == map["lotto" := game];
  }

  /** The same scenario with `add` as written: the call fails and the store
      reads back empty. */
  method StoreOneGameAsWritten(game: Fetch.Game) returns (error: Option<string>, retrieved: map<string, Fetch.Game>)
    ensures error == Some("AttributeError")
    ensures retrieved == map[]
  {
    var repo := new GamesRepository(ReadPath, map[]);
    error := repo.AddAsWritten("lotto", game);
    var readError;
    retrieved, readError := repo.GetAll();
  }

  /** The scenario as the test writes it, with the repository on another path
      (a temporary directory's "games.yml") and no "games.yml" where
      `get_all` reads: the add succeeds, but the game is never read back. */
  method StoreOneGameElsewhere(path: string, game: Fetch.Game) returns (error: Option<string>, retrieved: map<string, Fetch.Game>)
    requires path != ReadPath
    ensures error == None
    ensures retrieved == map[]
  {
    var repo := new GamesRepository(path, map[]);
    error := repo.Add("lotto", game);
    var readError;
    retrieved, readError := repo.GetAll();
  }

  /** The test's scenario on the repository as evidently intended: on any
      path, one game added to an empty store reads back as the only entry. */
  method StoreOneGameAnywhere(path: string, game: Fetch.Game) returns (error: Option<string>, retrieved: map<string, Fetch.Game>)
    ensures error == None
    ensures |retrieved| == 1
    ensures "lotto" in retrieved && retrieved["lotto"] == game
  {
    var repo := new GamesRepository.ReadingOwnFile(path, map[]);
    error := repo.Add("lotto", game);
    var readError;
    retrieved, readError := repo.GetAll();
    assert retrieved == map["lotto" := game];
  }

  /** A malformed store is read as empty, so the next `add` replaces it with
      a file holding the one new entry. */
  method AddOverMalformed(gameLabel: string, game: Fetch.Game) returns (retrieved: map<string, Fetch.Game>)
    ensures retrieved == map[gameLabel := game]
  {
    var repo := new GamesRepository(ReadPath, map[ReadPath := Malformed]);
    var error := repo.Add(gameLabel, game);
    var readError;
    retrieved, readError := repo.GetAll();
  }

  /** A store holding a YAML list instead of a mapping makes every `add`
      fail on its read, and the file is left as it was. */
  method AddOverList(gameLabel: string, game: Fetch.Game) returns (error: Option<string>, after: StoreFile)
    ensures error == Some("AttributeError")
    ensures after == NotAMapping
  {
    var repo := new GamesRepository(ReadPath, map[ReadPath := NotAMapping]);
    error := repo.Add(gameLabel, game);
    after := repo.FileAt(ReadPath);
  }
}
