/**
 * The local fixture provider: a recording already on disk, copied into the destination folder
 * under its own file name.
 */
module McapWrapper {
  import opened Wrappers
  import opened Strings
  import Paths
  import opened FileTree
  import Models

  /** A provider for the recording at `path`. */
  datatype McapFixture = McapFixture(path: string)

  /** `f'{destination}/{path.split("/")[-1]}'`: the folder, a '/', and the source's file name. */
  function CopyTarget(destination: string, path: string): (r: string)
    ensures StartsWith(r, destination + "/")
    ensures var name := r[|destination| + 1..];
      name == Paths.Basename(path) && '/' !in name && EndsWith(path, name) && ('/' !in path ==> name == path)
  {
    Paths.LastPieceIsBasename(path);
    var r := destination + "/" + Paths.LastPiece(path);
    assert r[|destination| + 1..] == Paths.LastPiece(path);
    r
  }

  /**
   * `McapFixture.download(destination)`: the recording is copied to the target path, which is the
   * returned path; a copy that fails raises its error and changes nothing.
   */
  method Download(f: McapFixture, fs: Node, destination: string) returns (fs': Node, r: Result<Models.McapFixture, OsError>)
    ensures var copied := CopyFile(fs, f.path, CopyTarget(destination, f.path));
      (r.Success? <==> copied.Success?) &&
      (r.Success? ==> r.value.path == CopyTarget(destination, f.path) && fs' == copied.value.0) &&
      (r.Failure? ==> r.error == copied.error && fs' == fs)
    ensures r.Success? && !IsDir(fs, r.value.path) ==> At(fs', r.value.path) == At(fs, f.path)
  {
    var mcapPath := destination + "/" + Paths.LastPiece(f.path);
    var copied := CopyFile(fs, f.path, mcapPath);
    if copied.Failure? {
      return fs, Failure(copied.error);
    }
    CopyFileCopies(fs, f.path, mcapPath);
    return copied.value.0, Success(Models.McapFixture(mcapPath));
  }

  /**
   * Where a directory already stands at the target path, `shutil.copy` copies into it, so the
   * returned path names that directory and the recording lies one level below.
   */
  lemma DirectoryAtTargetCopiesInside(f: McapFixture, fs: Node, destination: string)
    requires var target := CopyTarget(destination, f.path); IsDir(fs, target) && CopyFile(fs, f.path, target).Success?
    ensures var target := CopyTarget(destination, f.path);
      var copied := CopyFile(fs, f.path, target).value;
      copied.1 == Paths.OsJoin(target, Paths.Basename(f.path)) && At(copied.0, copied.1) == At(fs, f.path)
  {
    CopyFileCopies(fs, f.path, CopyTarget(destination, f.path));
  }
}
