/**
 * `ISOManager`: recognising a Blu-ray disc folder. A path is a Blu-ray
 * directory when it holds a `BDMV` directory in which `STREAM`, `PLAYLIST`
 * and `CLIPINF` each exist, directly or as a directory under `BDMV/BACKUP`.
 *
 * The file system is a parameter: a map from a normalised path to the kind
 * of file there (a path not in the map does not exist), looked up the way
 * `java.io.File` does after normalising the path.
 */
module IsoManager {
  import opened Wrappers
  import opened Strings

  /** What is at a path: a directory, a regular file, or something else (a device, a FIFO). */
  datatype Kind = Directory | RegularFile | Special

  type FileSystem = map<string, Kind>

  const FILE_PREFIX: string := "file://"
  const SEPARATOR: string := "/"

  // ------------------------------------------------------------ paths

  /** Runs of '/' collapsed to one. */
  function CollapseSlashes(s: string): (r: string)
    ensures |r| <= |s|
    ensures |s| > 0 ==> |r| > 0 && r[0] == s[0] && r[|r| - 1] == s[|s| - 1]
    decreases |s|
  {
    if |s| < 2 then s
    else if s[0] == '/' && s[1] == '/' then CollapseSlashes(s[1..])
    else [s[0]] + CollapseSlashes(s[1..])
  }

  /** No two slashes in a row. */
  predicate NoDoubleSlash(s: string) {
    forall k :: 0 <= k < |s| - 1 ==> !(s[k] == '/' && s[k + 1] == '/')
  }

  lemma {:induction false} CollapseSlashesClean(s: string)
    ensures NoDoubleSlash(CollapseSlashes(s))
    decreases |s|
  {
    if |s| >= 2 {
      CollapseSlashesClean(s[1..]);
      if !(s[0] == '/' && s[1] == '/') {
        var rest := CollapseSlashes(s[1..]);
        var r := [s[0]] + rest;
        assert rest[0] == s[1];
        forall k | 0 <= k < |r| - 1
          ensures !(r[k] == '/' && r[k + 1] == '/')
        {
          if k > 0 {
            assert r[k] == rest[k - 1] && r[k + 1] == rest[k];
          }
        }
      }
    }
  }

  /** `java.io.File`'s path normalisation on Unix: no repeated '/' and no trailing '/' (except for "/"). */
  function Normalize(path: string): (r: string)
    ensures |r| <= |path|
  {
    var c := CollapseSlashes(path);
    if |c| > 1 && c[|c| - 1] == '/' then c[..|c| - 1] else c
  }

  /** A normalised path has no repeated '/', and ends in '/' only when it is "/". */
  lemma NormalizeClean(path: string)
    ensures NoDoubleSlash(Normalize(path))
    ensures var r := Normalize(path); |r| > 1 ==> r[|r| - 1] != '/'
  {
    var c := CollapseSlashes(path);
    CollapseSlashesClean(path);
    if |c| > 1 && c[|c| - 1] == '/' {
      var r := c[..|c| - 1];
      forall k | 0 <= k < |r| - 1
        ensures !(r[k] == '/' && r[k + 1] == '/')
      {
        assert r[k] == c[k] && r[k + 1] == c[k + 1];
      }
      assert c[|c| - 2] != '/';
      assert |r| > 0 ==> r[|r| - 1] == c[|c| - 2];
    }
  }

  /** `File.exists`. */
  predicate Exists(fs: FileSystem, path: string) {
    Normalize(path) in fs
  }

  /** `File.isDirectory`. */
  predicate IsDirectory(fs: FileSystem, path: string) {
    Normalize(path) in fs && fs[Normalize(path)] == Directory
  }

  /** `File.isFile`. */
  predicate IsFile(fs: FileSystem, path: string) {
    Normalize(path) in fs && fs[Normalize(path)] == RegularFile
  }

  function Child(path: string, name: string): string {
    path + SEPARATOR + name
  }

  // ------------------------------------------------------------ existInBackUp

  /**
   * `existInBackUp`: false for a missing argument or a backup path that is
   * not an existing directory; else whether `name` exists there with the
   * asked-for kind.
   */
  function ExistInBackUp(fs: FileSystem, path: Option<string>, name: Option<string>, isDirectory: bool): (r: bool)
    ensures path.None? || name.None? ==> !r
    ensures path.Some? && !IsDirectory(fs, path.value) ==> !r
    ensures path.Some? && name.Some? && IsDirectory(fs, path.value) ==>
      (r <==> (if isDirectory then IsDirectory(fs, Child(path.value, name.value)) else IsFile(fs, Child(path.value, name.value))))
  {
    if path.None? || name.None? then false
    else if !Exists(fs, path.value) || !IsDirectory(fs, path.value) then false
    else
      var file := Child(path.value, name.value);
      if Exists(fs, file) then
        if isDirectory then IsDirectory(fs, file) else IsFile(fs, file)
      else false
  }

  /** A name found in the backup is found with exactly one kind: a directory is never a file. */
  lemma BackUpKindsExclusive(fs: FileSystem, path: string, name: string)
    ensures !(ExistInBackUp(fs, Some(path), Some(name), true) && ExistInBackUp(fs, Some(path), Some(name), false))
  {
  }

  // ------------------------------------------------------------ isBDDirectory

  /** The scheme `Uri.parse` finds: the text before the first ':', none without one. */
  function Scheme(uri: string): Option<string> {
    match FindChar(uri, ':')
    case None => None
    case Some(i) => Some(uri[..i])
  }

  /** The path `isBDDirectory(String)` examines: a "file://" prefix is removed when the scheme is absent or "file". */
  function LocalPath(pathStr: string): string {
    var scheme := Scheme(pathStr);
    if (scheme.None? || scheme.value == "file") && StartsWith(pathStr, FILE_PREFIX) then pathStr[|FILE_PREFIX|..]
    else pathStr
  }

  /** The scheme test never decides anything: a text starting with "file://" has scheme "file". */
  lemma LocalPathStripsFilePrefix(pathStr: string)
    ensures LocalPath(pathStr) == if StartsWith(pathStr, FILE_PREFIX) then pathStr[|FILE_PREFIX|..] else pathStr
  {
    if StartsWith(pathStr, FILE_PREFIX) {
      assert pathStr == "file" + [':'] + pathStr[5..];
      FindCharAfter("file", ':', pathStr[5..]);
      assert pathStr[..4] == "file";
    }
  }

  /** `STREAM`, `PLAYLIST` or `CLIPINF` is there: directly in `BDMV` (of any kind), or as a directory in `BDMV/BACKUP`. */
  predicate PartPresent(fs: FileSystem, bdmv: string, part: string) {
    Exists(fs, Child(bdmv, part)) || ExistInBackUp(fs, Some(Child(bdmv, "BACKUP")), Some(part), true)
  }

  /** `isBDDirectory(String)`. */
  function IsBDDirectory(fs: FileSystem, pathStr: Option<string>): bool {
    if pathStr.None? then false
    else
      var path := LocalPath(pathStr.value);
      if IsDirectory(fs, path) then
        var bdmv := Child(path, "BDMV");
        if Exists(fs, bdmv) && IsDirectory(fs, bdmv) then
          if !Exists(fs, Child(bdmv, "STREAM")) && !ExistInBackUp(fs, Some(Child(bdmv, "BACKUP")), Some("STREAM"), true) then false
          else if !Exists(fs, Child(bdmv, "PLAYLIST")) && !ExistInBackUp(fs, Some(Child(bdmv, "BACKUP")), Some("PLAYLIST"), true) then false
          else if !Exists(fs, Child(bdmv, "CLIPINF")) && !ExistInBackUp(fs, Some(Child(bdmv, "BACKUP")), Some("CLIPINF"), true) then false
          else true
        else false
      else false
  }

  /**
   * A path is a Blu-ray directory exactly when it is a directory holding a
   * `BDMV` directory in which each of the three parts is present.
   */
  lemma IsBDDirectoryIff(fs: FileSystem, pathStr: string)
    ensures IsBDDirectory(fs, Some(pathStr)) <==>
      var path := LocalPath(pathStr);
      var bdmv := Child(path, "BDMV");
      IsDirectory(fs, path) && IsDirectory(fs, bdmv) &&
      PartPresent(fs, bdmv, "STREAM") && PartPresent(fs, bdmv, "PLAYLIST") && PartPresent(fs, bdmv, "CLIPINF")
  {
  }

  /** No path is given: not a Blu-ray directory. */
  lemma NoPathNotBD(fs: FileSystem)
    ensures !IsBDDirectory(fs, None)
  {
  }

  /** A "file://" URI names the same folder as its path. */
  lemma FileUriSameAsPath(fs: FileSystem, path: string)
    requires !StartsWith(path, FILE_PREFIX)
    ensures IsBDDirectory(fs, Some(FILE_PREFIX + path)) == IsBDDirectory(fs, Some(path))
  {
    LocalPathStripsFilePrefix(FILE_PREFIX + path);
    LocalPathStripsFilePrefix(path);
    assert (FILE_PREFIX + path)[..|FILE_PREFIX|] == FILE_PREFIX;
    assert (FILE_PREFIX + path)[|FILE_PREFIX|..] == path;
  }

  /**
   * The asymmetry between the two places a part may be: directly in `BDMV`
   * any kind of file will do, while in `BDMV/BACKUP` it must be a directory.
   */
  lemma PartPresenceAsymmetric(fs: FileSystem, bdmv: string, part: string)
    ensures IsFile(fs, Child(bdmv, part)) ==> PartPresent(fs, bdmv, part)
    ensures !Exists(fs, Child(bdmv, part)) && IsFile(fs, Child(Child(bdmv, "BACKUP"), part)) ==>
      !PartPresent(fs, bdmv, part)
  {
  }

  // ------------------------------------------------------------ isBDDirectory(Context, Uri)

  /**
   * `isBDDirectory(Context, Uri)`: for an ISO image the path of a "file://"
   * URI, else the media store's `DATA` column for it (`queried`); none for any
   * other MIME type.
   */
  function IsoPath(mime: Option<string>, uri: string, queried: Option<string>): (r: Option<string>)
    ensures mime != Some("video/iso") ==> r.None?
    ensures mime == Some("video/iso") && StartsWith(uri, FILE_PREFIX) ==> r == Some(uri[|FILE_PREFIX|..])
    ensures mime == Some("video/iso") && !StartsWith(uri, FILE_PREFIX) ==> r == queried
  {
    if mime.Some? && mime.value == "video/iso" then
      if StartsWith(uri, FILE_PREFIX) then Some(uri[|FILE_PREFIX|..]) else queried
    else None
  }
}
