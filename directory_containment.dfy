/** The containment test of the download gate compares strings, not path
    components, so a canonical path in a sibling directory whose name starts
    with the storage directory's name (`static_files2` next to `static_files`)
    passes it. This module exhibits such a request against the gate as
    written, and defines the directory-aware test the gate evidently intends,
    with the same request refused. */
module DirectoryContainment {
  import opened PosixPath
  import opened AliasDownload

  /** The canonical directory `root` followed by a separator. */
  function DirectoryPrefix(root: string): (d: string)
    ensures root <= d && |d| > 0 && d[|d| - 1] == Sep
    ensures |d| <= |root| + 1
  {
    if |root| > 0 && root[|root| - 1] == Sep then root else root + [Sep]
  }

  /** `p` is the directory `root` itself or lies beneath it, component-wise. */
  predicate WithinDirectory(root: string, p: string) {
    p == root || DirectoryPrefix(root) <= p
  }

  /** Being within the directory implies the string-prefix test. */
  lemma WithinDirectoryIsPrefix(root: string, p: string)
    requires WithinDirectory(root, p)
    ensures root <= p
  {
  }

  /** A name that continues the directory's name with anything but a
      separator is not within it. */
  lemma SiblingNotWithin(root: string, rest: string)
    requires |root| > 0 && root[|root| - 1] != Sep
    requires |rest| > 0 && rest[0] != Sep
    ensures !WithinDirectory(root, root + rest)
  {
    assert (root + rest)[|root|] == rest[0];
  }

  /** A deployment in which `static_files2/fw.bin` exists next to the storage
      directory and the alias `fw` maps to `../static_files2/fw.bin`. */
  const SiblingName: string := "../static_files2/fw.bin"
  const SiblingPath: string := FilesDir + "/" + SiblingName
  const SiblingRoot: string := "/srv/static_files"
  const SiblingCanonical: string := SiblingRoot + "2/fw.bin"
  const SiblingLoad: MappingLoad := Loaded(map["fw" := SiblingName])
  const SiblingFs: FileSystem := FileSystem(
    p => p == SiblingPath,
    p => if p == FilesDir then SiblingRoot else if p == SiblingPath then SiblingCanonical else p)

  lemma SiblingRequestPath()
    ensures FilenameFromAlias(SiblingLoad, "fw") == Found(SiblingName)
    ensures Join(FilesDir, SiblingName) == SiblingPath
  {
    assert !IsAbsolute(SiblingName) by { assert SiblingName[0] == '.'; }
    JoinedPath(SiblingName);
  }

  lemma SiblingCanonicalPaths()
    ensures SiblingFs.isFile(SiblingPath)
    ensures SiblingFs.realpath(FilesDir) == SiblingRoot
    ensures SiblingFs.realpath(SiblingPath) == SiblingCanonical
  {
    assert |SiblingPath| != |FilesDir|;
  }

  /** As written, the gate serves the sibling's file although its canonical
      path lies outside the canonical storage directory. */
  lemma SiblingDirectoryIsServed()
    ensures RequestFileByAlias(SiblingLoad, "fw", SiblingFs) == Serve(SiblingPath, SiblingName)
    ensures !WithinDirectory(SiblingFs.realpath(FilesDir), SiblingFs.realpath(SiblingPath))
  {
    SiblingRequestPath();
    SiblingCanonicalPaths();
    SiblingNotWithin(SiblingRoot, "2/fw.bin");
  }

  /** The gate with the directory-aware containment test: same order of
      checks, same error taxonomy. */
  function RequestFileByAliasContained(load: MappingLoad, alias: string, fs: FileSystem): (r: Response)
    ensures r.Serve? ==> fs.isFile(r.path) && WithinDirectory(fs.realpath(FilesDir), fs.realpath(r.path))
    ensures r.Serve? ==> load.Loaded? && Maps(load.mapping, alias) && r.filename == load.mapping[alias]
  {
    match FilenameFromAlias(load, alias)
    case Failed(e) => Reject(e)
    case Found(filename) =>
      var filePath := Join(FilesDir, filename);
      if !fs.isFile(filePath) then Reject(FileNotFound(filename))
      else if !WithinDirectory(fs.realpath(FilesDir), fs.realpath(filePath)) then Reject(Forbidden)
      else Serve(filePath, filename)
  }

  /** The corrected gate only narrows the gate as written: it serves nothing
      the original refuses, refuses for the same reasons, and differs only by
      answering 403 where the original served a file outside the directory. */
  lemma ContainedNarrowsAsWritten(load: MappingLoad, alias: string, fs: FileSystem)
    ensures var fixed := RequestFileByAliasContained(load, alias, fs);
      var orig := RequestFileByAlias(load, alias, fs);
      (fixed.Serve? ==> orig == fixed)
      && (orig.Reject? ==> fixed == orig)
      && (orig.Serve? && WithinDirectory(fs.realpath(FilesDir), fs.realpath(orig.path)) ==> fixed == orig)
      && (orig.Serve? && !WithinDirectory(fs.realpath(FilesDir), fs.realpath(orig.path)) ==> fixed == Reject(Forbidden))
  {
    var res := FilenameFromAlias(load, alias);
    if res.Found? {
      var filePath := Join(FilesDir, res.filename);
      if WithinDirectory(fs.realpath(FilesDir), fs.realpath(filePath)) {
        WithinDirectoryIsPrefix(fs.realpath(FilesDir), fs.realpath(filePath));
      }
    }
  }

  /** The corrected gate refuses the sibling request with 403. */
  lemma SiblingDirectoryIsForbidden()
    ensures RequestFileByAliasContained(SiblingLoad, "fw", SiblingFs) == Reject(Forbidden)
  {
    SiblingDirectoryIsServed();
  }
}
