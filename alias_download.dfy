/** The alias download gate of the file server: an alias is looked up in the
    alias-to-filename mapping, the filename is joined onto the storage
    directory, and the file is served only if it exists and its canonical path
    passes the containment test against the canonical storage directory.

    The file system enters as two uninterpreted functions (`isFile` for
    `os.path.isfile`, `realpath` for `os.path.realpath`), and the mapping file
    enters as the outcome of loading it. Every request is a total function of
    those inputs. */
module AliasDownload {
  import opened PosixPath

  /** Directory that holds every servable file. */
  const FilesDir: string := "static_files"
  /** The alias-to-filename mapping document. */
  const MappingFile: string := "mapping.json"

  /** What reading and decoding the mapping document produced. */
  datatype MappingLoad =
    | Missing                                // the file does not exist
    | Malformed                              // the file is not valid JSON
    | Loaded(mapping: map<string, string>)   // alias -> filename

  /** The two file-system queries the gate makes. */
  datatype FileSystem = FileSystem(isFile: string -> bool, realpath: string -> string)

  /** Why a request is refused; each cause carries the HTTP status it is
      reported with. */
  datatype Error =
    | MappingFileMissing(file: string)
    | MappingFileInvalid(file: string)
    | AliasNotFound(alias: string)
    | FileNotFound(filename: string)
    | Forbidden
  {
    function Status(): (s: int) {
      match this
      case MappingFileMissing(_) => 500
      case MappingFileInvalid(_) => 500
      case AliasNotFound(_) => 404
      case FileNotFound(_) => 404
      case Forbidden => 403
    }
  }

  datatype Resolution = Found(filename: string) | Failed(error: Error)

  /** The outcome of a download request: stream the file at `path` under the
      download name `filename`, or refuse. */
  datatype Response = Serve(path: string, filename: string) | Reject(error: Error)

  /** Does `alias` map to a filename that Python treats as true (non-empty)? */
  predicate Maps(mapping: map<string, string>, alias: string) {
    alias in mapping && mapping[alias] != ""
  }

  /** The filename an alias stands for. Configuration failures (500) come
      before any lookup; an absent alias and one mapped to the empty string
      are both unknown (404); otherwise the mapped filename comes back as it
      is, unvalidated. */
  function FilenameFromAlias(load: MappingLoad, alias: string): (r: Resolution)
    ensures r.Found? <==> load.Loaded? && Maps(load.mapping, alias)
    ensures r.Found? ==> r.filename == load.mapping[alias]
    ensures !load.Loaded? ==> r.Failed? && r.error.Status() == 500
    ensures load.Loaded? && r.Failed? ==> r.error == AliasNotFound(alias) && r.error.Status() == 404
  {
    match load
    case Missing => Failed(MappingFileMissing(MappingFile))
    case Malformed => Failed(MappingFileInvalid(MappingFile))
    case Loaded(mapping) =>
      if Maps(mapping, alias) then Found(mapping[alias]) else Failed(AliasNotFound(alias))
  }

  /** The containment test as the server writes it: the common prefix of the
      canonical file path and the canonical storage directory must be the
      whole canonical storage directory. It passes exactly when the canonical
      storage directory is a character-wise prefix of the canonical path. */
  predicate PassesContainment(fs: FileSystem, filePath: string)
    ensures PassesContainment(fs, filePath) <==> fs.realpath(FilesDir) <= fs.realpath(filePath)
  {
    CommonPrefixIsWholeIff(fs.realpath(filePath), fs.realpath(FilesDir));
    CommonPrefix(fs.realpath(filePath), fs.realpath(FilesDir)) == fs.realpath(FilesDir)
  }

  /** `GET /request_file/{alias}`: resolve, join onto the storage directory,
      refuse a path that is not an existing file (404), then one whose
      canonical form fails the containment test (403), and serve the rest
      under the mapped filename. */
  function RequestFileByAlias(load: MappingLoad, alias: string, fs: FileSystem): (r: Response)
    ensures r.Serve? <==>
      load.Loaded? && Maps(load.mapping, alias)
      && fs.isFile(Join(FilesDir, load.mapping[alias]))
      && fs.realpath(FilesDir) <= fs.realpath(Join(FilesDir, load.mapping[alias]))
    ensures r.Serve? ==> r.filename == load.mapping[alias] && r.path == Join(FilesDir, r.filename)
    ensures r.Reject? && r.error.Status() == 403 <==>
      load.Loaded? && Maps(load.mapping, alias)
      && fs.isFile(Join(FilesDir, load.mapping[alias]))
      && !(fs.realpath(FilesDir) <= fs.realpath(Join(FilesDir, load.mapping[alias])))
  {
    match FilenameFromAlias(load, alias)
    case Failed(e) => Reject(e)
    case Found(filename) =>
      var filePath := Join(FilesDir, filename);
      if !fs.isFile(filePath) then Reject(FileNotFound(filename))
      else if !PassesContainment(fs, filePath) then Reject(Forbidden)
      else Serve(filePath, filename)
  }

  /** A resolution failure is the response, whatever the file system holds. */
  lemma ResolutionFailurePropagates(load: MappingLoad, alias: string, fs: FileSystem)
    requires FilenameFromAlias(load, alias).Failed?
    ensures RequestFileByAlias(load, alias, fs) == Reject(FilenameFromAlias(load, alias).error)
    ensures !load.Loaded? ==> RequestFileByAlias(load, alias, fs).error.Status() == 500
    ensures load.Loaded? ==> RequestFileByAlias(load, alias, fs) == Reject(AliasNotFound(alias))
  {
  }

  /** The existence check comes first: a missing file is a 404 naming the
      mapped filename, whatever canonicalisation would have said. */
  lemma ExistenceCheckedFirst(mapping: map<string, string>, alias: string, fs1: FileSystem, fs2: FileSystem)
    requires Maps(mapping, alias)
    requires fs1.isFile == fs2.isFile
    requires !fs1.isFile(Join(FilesDir, mapping[alias]))
    ensures RequestFileByAlias(Loaded(mapping), alias, fs1) == Reject(FileNotFound(mapping[alias]))
    ensures RequestFileByAlias(Loaded(mapping), alias, fs1) == RequestFileByAlias(Loaded(mapping), alias, fs2)
  {
  }

  /** A relative filename lands under the storage directory; an absolute one
      replaces it. */
  lemma JoinedPath(filename: string)
    ensures !IsAbsolute(filename) ==> Join(FilesDir, filename) == FilesDir + "/" + filename
    ensures IsAbsolute(filename) ==> Join(FilesDir, filename) == filename
  {
  }

  /** The containment test accepts the canonical storage directory itself and
      everything under it ... */
  lemma ContainmentAcceptsRootAndBelow(fs: FileSystem, filePath: string)
    requires var root := fs.realpath(FilesDir);
      fs.realpath(filePath) == root || root + "/" <= fs.realpath(filePath)
    ensures PassesContainment(fs, filePath)
  {
  }

  /** ... but, being a plain string prefix, also any sibling whose name merely
      starts with the directory's name, such as `static_files2/x`. */
  lemma ContainmentAcceptsSibling(fs: FileSystem, filePath: string, rest: string)
    requires |rest| > 0 && rest[0] != Sep
    requires fs.realpath(filePath) == fs.realpath(FilesDir) + rest
    ensures PassesContainment(fs, filePath)
  {
  }
}
