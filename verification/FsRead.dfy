/** Reading files under approved roots, over an abstract static file system. */
module FsRead {
  import opened Wrappers
  import opened Types
  import opened Bytes

  /** A canonical absolute path, as its components. */
  type Path = seq<string>

  datatype Node = File(bytes: seq<Byte>) | Dir | Special

  /** `canonical` resolves `..`, `.` and symbolic links of the raw paths that exist. */
  datatype FileSystem = FileSystem(canonical: map<string, Path>, nodes: map<Path, Node>, unreadable: set<Path>)

  const FS_READ_MAX_BYTES: nat := 10 * 1024 * 1024

  datatype ReadOk = ReadOk(canonical: Path, bytes: seq<Byte>)

  function Canonicalize(fs: FileSystem, raw: string): Option<Path> {
    if raw in fs.canonical then Some(fs.canonical[raw]) else None
  }

  /** Component-wise containment: `/a/bc` is not under `/a/b`. */
  predicate Under(path: Path, root: Path) {
    root <= path
  }

  predicate UnderAny(path: Path, roots: seq<Path>) {
    exists i :: 0 <= i < |roots| && Under(path, roots[i])
  }

  function ReadUnderRoots(fs: FileSystem, requested: string, roots: seq<Path>): Result<ReadOk, ApiError> {
    if roots == [] then Err(ForbiddenPath)
    else
      match Canonicalize(fs, requested)
      case None => Err(PathNotFound)
      case Some(path) =>
        if !UnderAny(path, roots) then Err(ForbiddenPath)
        else if path !in fs.nodes then Err(PathNotFound)
        else if !fs.nodes[path].File? then Err(NotAFile)
        else if |fs.nodes[path].bytes| > FS_READ_MAX_BYTES then Err(PathTooLarge)
        else if path in fs.unreadable then Err(PathNotFound)
        else Ok(ReadOk(path, fs.nodes[path].bytes))
  }

  /** What a successful read means, both ways: exactly the readable files of at most 10 MiB whose
      canonical path lies under an approved root; the bytes are the file's, whole. */
  lemma ReadIffConfined(fs: FileSystem, requested: string, roots: seq<Path>)
    ensures var r := ReadUnderRoots(fs, requested, roots);
      && (r.Ok? <==>
          requested in fs.canonical &&
          var p := fs.canonical[requested];
          && UnderAny(p, roots) && p in fs.nodes && fs.nodes[p].File? && p !in fs.unreadable
          && |fs.nodes[p].bytes| <= FS_READ_MAX_BYTES)
      && (r.Ok? ==> r.value.canonical == fs.canonical[requested] && fs.nodes[r.value.canonical] == File(r.value.bytes))
  {
  }

  /** Why a read fails, each error both ways. */
  lemma ReadFailsIff(fs: FileSystem, requested: string, roots: seq<Path>)
    ensures var r := ReadUnderRoots(fs, requested, roots);
      var found := requested in fs.canonical;
      var p := if found then fs.canonical[requested] else [];
      var inside := found && exists i :: 0 <= i < |roots| && roots[i] <= p;
      && (r == Err(ForbiddenPath) <==> roots == [] || (found && !inside))
      && (r == Err(PathNotFound) <==>
            && roots != []
            && (!found || (inside && (p !in fs.nodes || (fs.nodes[p].File? && |fs.nodes[p].bytes| <= 10_485_760
                                                        && p in fs.unreadable)))))
      && (r == Err(NotAFile) <==> inside && p in fs.nodes && !fs.nodes[p].File?)
      && (r == Err(PathTooLarge) <==> inside && p in fs.nodes && fs.nodes[p].File? && |fs.nodes[p].bytes| > 10_485_760)
      && (r.Ok? || r.error in {ForbiddenPath, PathNotFound, NotAFile, PathTooLarge})
  {
    if requested in fs.canonical {
      assert UnderAny(fs.canonical[requested], roots) <==>
        exists i :: 0 <= i < |roots| && roots[i] <= fs.canonical[requested];
    }
  }

  predicate IsDir(fs: FileSystem, p: Path) {
    p in fs.nodes && fs.nodes[p].Dir?
  }

  /** Roots that do not exist or are not directories are dropped; the rest keep their order. */
  function CanonicalizeRoots(fs: FileSystem, raw: seq<string>): seq<Path> {
    if raw == [] then []
    else
      match Canonicalize(fs, raw[0])
      case Some(p) => if IsDir(fs, p) then [p] + CanonicalizeRoots(fs, raw[1..]) else CanonicalizeRoots(fs, raw[1..])
      case None => CanonicalizeRoots(fs, raw[1..])
  }

  lemma {:induction false} RootsAreRequestedDirs(fs: FileSystem, raw: seq<string>, p: Path)
    ensures p in CanonicalizeRoots(fs, raw) <==>
      exists i :: 0 <= i < |raw| && Canonicalize(fs, raw[i]) == Some(p) && IsDir(fs, p)
  {
    if raw != [] {
      RootsAreRequestedDirs(fs, raw[1..], p);
      if exists i :: 0 <= i < |raw[1..]| && Canonicalize(fs, raw[1..][i]) == Some(p) && IsDir(fs, p) {
        var i :| 0 <= i < |raw[1..]| && Canonicalize(fs, raw[1..][i]) == Some(p) && IsDir(fs, p);
        assert raw[i + 1] == raw[1..][i];
      }
      if exists i :: 1 <= i < |raw| && Canonicalize(fs, raw[i]) == Some(p) && IsDir(fs, p) {
        var i :| 1 <= i < |raw| && Canonicalize(fs, raw[i]) == Some(p) && IsDir(fs, p);
        assert raw[1..][i - 1] == raw[i];
      }
    }
  }
}
