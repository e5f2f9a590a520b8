# Alias download gate of the ESP32 file server

The server lets a device download a file by a stable alias instead of its
real filename. `GET /request_file/{alias}` does four things. It looks the
alias up in `mapping.json`. It joins the filename onto the storage directory
`static_files`. It refuses a path that is not an existing regular file. It
then refuses a path whose canonical form fails a containment test against
the canonical storage directory. Everything else is streamed back under the
mapped filename.

This project models that decision as total functions of explicit inputs:

- The outcome of loading the mapping document: `Missing`, `Malformed` or
  `Loaded(map<string, string>)`.
- The alias.
- A `FileSystem` value that holds two uninterpreted functions: `isFile`
  stands for `os.path.isfile`, and `realpath` for `os.path.realpath`.

The response is `Serve(path, filename)` or `Reject(error)`. Every error
carries its HTTP status: 500 when the mapping file is missing or invalid,
404 for an unknown alias or a missing file, and 403 when the path is not
contained.

Modules:

- `PosixPath` (`posix_path.dfy`) gives the string semantics of the two
  Python library helpers the gate relies on. `Join` is `os.path.join` for two
  components; an absolute second component replaces the first.
  `CommonPrefix` is `os.path.commonprefix`, which works character by
  character. `CommonPrefixOfPair` is CPython's own loop for that function:
  it takes the `min` and the `max` of the pair and scans them side by side.
  It is proved equal to `CommonPrefix`.
- `AliasDownload` (`alias_download.dfy`) covers alias resolution and the
  download decision of `main.py`.
- `DirectoryContainment` (`directory_containment.dfy`) covers the finding
  below: the as-written counterexample and the corrected gate.

The containment test in the code is not directory-aware, and it runs after
the existence check. A directory-aware test would reject the canonical path
`/srv/static_files2/x` against the root `/srv/static_files`. The code's test
accepts it, because it asks only whether the canonical root is a string
prefix of the canonical path (main.py:50). The existence check comes first
(main.py:48-49). The model keeps both as written, so its 403 condition is
`!(realpath(FilesDir) <= realpath(path))` on strings.

## Model

| member | source | states |
|---|---|---|
| `PosixPath.Join` | main.py:45 | An absolute filename replaces the directory. A relative one is appended to the directory. The separator is added only when the directory is non-empty and does not already end with `/`. The result always ends with the filename. |
| `AliasDownload.JoinedPath` | main.py:45 | Joined onto `static_files`, a relative filename gives `static_files/<filename>`. An absolute filename gives the filename itself. |
| `PosixPath.CommonPrefix` | main.py:50 | The result is a prefix of both strings and cannot be extended: it runs out one string or stops at the first differing character. |
| `PosixPath.CommonPrefixLongest` | main.py:50 | Every common prefix of the two strings is a prefix of `CommonPrefix`, so no longer common prefix exists. |
| `PosixPath.CommonPrefixSymmetric` | main.py:50 | The order of the two canonical paths in the tuple does not change the common prefix. |
| `PosixPath.CommonPrefixIsWholeIff` | main.py:50 | The common prefix of `p` and `root` equals `root` exactly when `root` is a character-wise prefix of `p`. |
| `PosixPath.LexLess` | main.py:50 | Python's `<` on strings, which `min` and `max` use inside `commonprefix`. It is lexicographic by code point, and no string is below itself. |
| `PosixPath.ProperPrefixIsLess` | main.py:50 | A proper prefix is below the string it starts, so the `min` of the pair is never a longer string that extends the `max`. |
| `PosixPath.LexLessAsymmetric` | main.py:50 | `<` never holds in both directions, so `min` and `max` of two different strings pick different elements. |
| `PosixPath.LexLessTotal` | main.py:50 | Of two different strings, one is below the other, so `min` and `max` of the pair are the two strings in some order. |
| `PosixPath.CommonPrefixOfPair` | main.py:50 | `commonprefix` applied to a pair by ordering it with `min`/`max` and scanning never reads past the larger string. It returns a common prefix of both, equal to `CommonPrefix`. |
| `AliasDownload.FilenameFromAlias` | main.py:15-30 | A missing or malformed mapping fails with 500 before any lookup. Otherwise it succeeds exactly when the alias is present with a non-empty filename, and returns that filename unchanged. An absent or empty entry fails with 404 naming the alias. |
| `AliasDownload.PassesContainment` | main.py:50 | The test `commonprefix((realpath(file_path), realpath("static_files"))) == realpath("static_files")` passes exactly when `realpath("static_files")` is a character-wise string prefix of `realpath(file_path)`. |
| `AliasDownload.RequestFileByAlias` | main.py:33-58 | A file is served exactly when the alias resolves, the joined path is a file, and the canonical directory is a string prefix of the canonical path. The served path is `join("static_files", filename)` and the download name is the mapped filename. A 403 comes exactly when the file exists and that prefix test fails. |
| `AliasDownload.ResolutionFailurePropagates` | main.py:41 | A resolution failure is the response, whatever the file system holds. Configuration errors give 500 and an unknown alias gives 404. |
| `AliasDownload.ExistenceCheckedFirst` | main.py:48-51 | If the joined path is not a file, the response is a 404 naming the mapped filename. It is the same under any canonicalisation, so the containment test is never consulted. |
| `AliasDownload.ContainmentAcceptsRootAndBelow` | main.py:50 | The canonical directory itself passes the test, and so does any canonical path starting with the directory plus `/`. |
| `AliasDownload.ContainmentAcceptsSibling` | main.py:50 | A canonical path that continues the directory's name with anything other than `/` passes too, for example a sibling such as `static_files2/x`. |
| `DirectoryContainment.SiblingDirectoryIsServed` | main.py:45-58 | Suppose alias `fw` maps to `../static_files2/fw.bin` and that file exists. The gate as written serves it, although its canonical path is not within the canonical storage directory. |
| `DirectoryContainment.RequestFileByAliasContained` | main.py:48-51 | The corrected gate serves only existing files whose canonical path equals the canonical directory or lies beneath it component-wise. The download name is the mapped filename. |
| `DirectoryContainment.ContainedNarrowsAsWritten` | main.py:48-58 | The corrected gate agrees with the gate as written on every refusal and on every file within the directory. Its only difference is a 403 where the original served a file outside the directory. |
| `DirectoryContainment.SiblingDirectoryIsForbidden` | main.py:50-51 | The corrected gate refuses the sibling request with 403. |

## Left out

- Over-the-air update checks and version comparison: `main.py` has no such route or code, so there is nothing to model.
- FastAPI app construction, route decorators, `HTTPException` plumbing and `FileResponse` streaming (main.py:10-13, 33, 54-58): framework glue. The response is the `Response` datatype, and the media type `application/octet-stream` and the message texts are not modelled.
- Opening and JSON-decoding `mapping.json` (main.py:17-19): file I/O plus a foreign parser. The outcome of loading it is an input.
- AliasDownload.FilenameFromAlias: mapping values are strings only, and `map<string, string>` cannot express any other JSON value. A falsy non-string value (`null`, `false`, `0`, `[]`, `{}`) fails `if not filename` (main.py:22-23) and gives the same 404 as an absent alias. A truthy non-string value (`5`, `true`, `[1]`) resolves, and then `os.path.join` raises at main.py:45, which the framework turns into a generic 500.
- AliasDownload.FilenameFromAlias: a JSON document that is not an object makes `mapping.get` raise, and an I/O error other than a missing file escapes the handler. Both become a generic 500 from the framework, and neither is modelled.
- The real behaviour of `os.path.realpath` (symlinks, `..`, the working directory) and of `os.path.isfile`: they depend on the file system, so both are uninterpreted functions. The model assumes the file system does not change between the two checks, and each `realpath` call on the same path gives the same answer.
- The `print` logging (main.py:42, 53) and the static message of `read_root` (main.py:60-62).
- Concurrency: requests are independent and share no mutable state.

## Findings

| source | as written | input that shows it | evidently intended | confidence | as-written member | corrected member |
|---|---|---|---|---|---|---|
| main.py:50 | `os.path.commonprefix` compares characters, so the test only asks whether the canonical storage directory is a string prefix of the canonical file path | `mapping.json` holds `{"fw": "../static_files2/fw.bin"}`, and `static_files2/fw.bin` exists next to `static_files`. Then `GET /request_file/fw` serves a file outside the storage directory | the canonical file path is the storage directory or lies beneath it, compared by path component | high (not executed) | `DirectoryContainment.SiblingDirectoryIsServed` | `DirectoryContainment.RequestFileByAliasContained` |
