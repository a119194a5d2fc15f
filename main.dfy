/**
  The command-line driver, apart from the file system: which directory entries are
  taken as descriptors, when the run stops with an error, and where the document goes.
  The directory listing, each descriptor's parsed contents and the directory test are
  given as inputs.
 */
module App {
  import opened Wrappers
  import opened SynoContainer
  import opened Docker
  import opened ToDocker

  /** Descriptor files are recognised by this case-sensitive suffix of their name. */
  const SynoJsonSuffix: string := ".syno.json"

  /** The name of the document written into the output directory. */
  const OutputFileName: string := "docker-compose.yml"

  predicate EndsWith(s: string, suffix: string) {
    |suffix| <= |s| && s[|s| - |suffix|..] == suffix
  }

  lemma EndsWithConcat(s: string, suffix: string)
    ensures EndsWith(s, suffix) <==> exists stem :: s == stem + suffix
  {
    if EndsWith(s, suffix) {
      assert s == s[..|s| - |suffix|] + suffix;
    }
    forall stem | s == stem + suffix
      ensures EndsWith(s, suffix)
    {
      assert s[|stem|..] == suffix;
    }
  }

  // ---------------------------------------------------------------------------
  // Choosing the descriptor files

  /**
    One entry of the input directory: its path, and the final component of that path
    when one exists and is valid Unicode (`None` for a path ending in `..`, say).
   */
  datatype DirEntry = DirEntry(path: string, fileName: Option<string>)

  /** An entry whose file name cannot be determined counts as the empty name. */
  function FileNameOrEmpty(e: DirEntry): string {
    match e.fileName
    case Some(n) => n
    case None => ""
  }

  predicate IsSynoDockerJsonFile(e: DirEntry) {
    EndsWith(FileNameOrEmpty(e), SynoJsonSuffix)
  }

  /**
    An entry is a descriptor file exactly when it has a file name and that name is some
    stem (possibly empty) followed by `.syno.json`.
   */
  lemma IsSynoDockerJsonFileSpec(e: DirEntry)
    ensures IsSynoDockerJsonFile(e)
        <==> e.fileName.Some? && exists stem :: e.fileName.value == stem + ".syno.json"
  {
    EndsWithConcat(FileNameOrEmpty(e), SynoJsonSuffix);
  }

  /** The suffix test is literal: no case folding, and a missing name never matches. */
  lemma SuffixIsLiteral()
    ensures IsSynoDockerJsonFile(DirEntry("in/app.syno.json", Some("app.syno.json")))
    ensures !IsSynoDockerJsonFile(DirEntry("in/app.SYNO.JSON", Some("app.SYNO.JSON")))
    ensures !IsSynoDockerJsonFile(DirEntry("in/app.syno.json.bak", Some("app.syno.json.bak")))
    ensures !IsSynoDockerJsonFile(DirEntry("in/..", None))
  {
    assert "app.syno.json" == "app" + SynoJsonSuffix;
    EndsWithConcat("app.syno.json", SynoJsonSuffix);
  }

  /** The entries kept from the listing, in listing order. */
  function SelectSynoFiles(entries: seq<DirEntry>): seq<DirEntry>
    decreases |entries|
  {
    if |entries| == 0 then []
    else
      var rest := SelectSynoFiles(entries[1..]);
      if IsSynoDockerJsonFile(entries[0]) then [entries[0]] + rest else rest
  }

  /**
    The selection holds all and only the listed entries whose file name ends in
    `.syno.json`.
   */
  lemma {:induction false} SelectSynoFilesSpec(entries: seq<DirEntry>)
    ensures |SelectSynoFiles(entries)| <= |entries|
    ensures forall e :: e in SelectSynoFiles(entries) <==> e in entries && IsSynoDockerJsonFile(e)
    decreases |entries|
  {
    if |entries| > 0 {
      SelectSynoFilesSpec(entries[1..]);
      assert forall e :: e in entries <==> e == entries[0] || e in entries[1..];
    }
  }

  /**
    Selection keeps the listing order: selecting from two listings one after the other
    is selecting from each and concatenating the results.
   */
  lemma {:induction false} SelectAppend(a: seq<DirEntry>, b: seq<DirEntry>)
    ensures SelectSynoFiles(a + b) == SelectSynoFiles(a) + SelectSynoFiles(b)
    decreases |a|
  {
    if |a| == 0 {
      assert a + b == b;
    } else {
      SelectAppend(a[1..], b);
      assert (a + b)[1..] == a[1..] + b;
    }
  }

  /** A single entry is kept exactly when it is a descriptor file. */
  lemma SelectOne(e: DirEntry)
    ensures SelectSynoFiles([e]) == if IsSynoDockerJsonFile(e) then [e] else []
  {
  }

  // ---------------------------------------------------------------------------
  // Where the document goes

  /**
    `Path::join` on a Unix system: an absolute name replaces the directory; otherwise a
    `/` is put between the two unless the directory is empty or already ends in one.
   */
  function JoinPath(dir: string, name: string): string {
    if |name| > 0 && name[0] == '/' then name
    else if |dir| == 0 || dir[|dir| - 1] == '/' then dir + name
    else dir + "/" + name
  }

  function OutputPath(outputDir: string): string {
    JoinPath(outputDir, OutputFileName)
  }

  /**
    The output path starts with the output directory and ends with `docker-compose.yml`
    as a whole final component; a `/` is added exactly when the directory is non-empty
    and does not already end in one; that name is never taken for a descriptor file.
   */
  lemma OutputPathSpec(outputDir: string)
    ensures var p, n := OutputPath(outputDir), |OutputFileName|;
      && |outputDir| <= |p| - n <= |outputDir| + 1
      && p[..|outputDir|] == outputDir
      && p[|p| - n..] == OutputFileName
      && (|p| == n || p[|p| - n - 1] == '/')
    ensures |OutputPath(outputDir)| - |OutputFileName| == |outputDir|
        <==> (outputDir == "" || outputDir[|outputDir| - 1] == '/')
    ensures !EndsWith(OutputFileName, SynoJsonSuffix)
  {
    assert OutputFileName[|OutputFileName| - |SynoJsonSuffix|..][0] == 'o';
  }

  // ---------------------------------------------------------------------------
  // The run

  datatype ErrorKind = NotFound | Other

  /** Why a run stopped before writing anything. */
  datatype RunError = NotADirectory(path: string) | NoSynoDockerJsonFiles(path: string)

  function Kind(e: RunError): ErrorKind {
    match e
    case NotADirectory(_) => Other
    case NoSynoDockerJsonFiles(_) => NotFound
  }

  /** What a successful run writes, and where. */
  datatype Output = Output(path: string, document: DockerCompose)

  /**
    One run: an input path that is not a directory is refused first; then the
    descriptor files are selected from the listing, and an empty selection is a
    not-found error; otherwise every selected file is loaded, in order, and the document
    built from them goes to `docker-compose.yml` in the output directory.
   */
  method Run(
    inputPath: string,
    inputIsDir: bool,
    listing: seq<DirEntry>,
    load: DirEntry -> SynoContainerConfig,
    outputDir: string)
    returns (r: Result<Output, RunError>)
    ensures !inputIsDir ==> r == Err(NotADirectory(inputPath))
    ensures inputIsDir && (forall e :: e in listing ==> !IsSynoDockerJsonFile(e))
      ==> r == Err(NoSynoDockerJsonFiles(inputPath)) && Kind(r.error) == NotFound
    ensures r.Ok? ==> inputIsDir && exists e :: e in listing && IsSynoDockerJsonFile(e)
    ensures r.Ok? ==> r.value.path == OutputPath(outputDir)
    ensures r.Ok? ==>
      r.value.document == IterToCompose(MapSeq(SelectSynoFiles(listing), load))
    ensures inputIsDir && SelectSynoFiles(listing) != [] ==> r.Ok?
  {
    if !inputIsDir {
      return Err(NotADirectory(inputPath));
    }
    var entries := SelectSynoFiles(listing);
    if |entries| == 0 {
      return Err(NoSynoDockerJsonFiles(inputPath));
    }
    SelectSynoFilesSpec(listing);
    assert entries[0] in entries;
    var configs := MapSeq(entries, load);
    var document := IterToCompose(configs);
    var outputPath := OutputPath(outputDir);
    r := Ok(Output(outputPath, document));
  }
}
