/** The part of the host filesystem the server and the runtime touch: a
    set of directories and a map from file paths to their contents. */
module FileSystem {
  import opened Base
  import Pbo

  /** A file holds bytes, or a PBO archive as `WritablePbo::write` left it. */
  datatype Content = Bytes(data: seq<byte>) | PboFile(archive: Pbo.Archive)

  /** The directories left when everything at or below `root` is removed. */
  function PrunedDirs(dirs: set<Path>, root: Path): set<Path>
  {
    set q | q in dirs && !Under(root, q)
  }

  /** The files left when everything at or below `root` is removed. */
  function PrunedFiles(files: map<Path, Content>, root: Path): map<Path, Content>
  {
    map q | q in files && !Under(root, q) :: files[q]
  }

  /** Pruning leaves nothing at or below `root`, keeps everything else
      with its contents, and pruning again changes nothing. */
  lemma PruneRemovesSubtree(dirs: set<Path>, files: map<Path, Content>, root: Path)
    ensures forall q :: q in PrunedDirs(dirs, root) ==> !Under(root, q)
    ensures forall q :: q in PrunedFiles(files, root) ==> !Under(root, q)
    ensures forall q :: q in dirs && !Under(root, q) ==> q in PrunedDirs(dirs, root)
    ensures forall q :: q in files && !Under(root, q) ==> q in PrunedFiles(files, root) && PrunedFiles(files, root)[q] == files[q]
    ensures PrunedDirs(PrunedDirs(dirs, root), root) == PrunedDirs(dirs, root)
    ensures PrunedFiles(PrunedFiles(files, root), root) == PrunedFiles(files, root)
  {
  }

  /** Whatever lies below `sub` lies below every ancestor of `sub`. */
  lemma UnderTransitive(root: Path, sub: Path, q: Path)
    requires Under(root, sub) && Under(sub, q)
    ensures Under(root, q)
  {
    assert q[..|root|] == q[..|sub|][..|root|];
  }

  /** Removing a subdirectory first and then its ancestor leaves what
      removing the ancestor alone leaves. */
  lemma PruneNested(dirs: set<Path>, files: map<Path, Content>, root: Path, sub: Path)
    requires Under(root, sub)
    ensures PrunedDirs(PrunedDirs(dirs, sub), root) == PrunedDirs(dirs, root)
    ensures PrunedFiles(PrunedFiles(files, sub), root) == PrunedFiles(files, root)
  {
    forall q | Under(sub, q)
      ensures Under(root, q)
    {
      UnderTransitive(root, sub, q);
    }
  }

  /** The contents at `p`, if there is a file there. */
  function Lookup(files: map<Path, Content>, p: Path): Option<Content>
  {
    if p in files then Some(files[p]) else None
  }

  class FileSystem {
    var dirs: set<Path>
    var files: map<Path, Content>

    constructor (dirs: set<Path>, files: map<Path, Content>)
      ensures this.dirs == dirs && this.files == files
    {
      this.dirs, this.files := dirs, files;
    }

    /** `create_dir_all`: `p` and every ancestor of it exist afterwards. */
    method CreateDirAll(p: Path)
      modifies this`dirs
      ensures dirs == old(dirs) + Ancestry(p)
    {
      dirs := dirs + Ancestry(p);
    }

    /** `File::create` followed by writing `content`: succeeds, replacing
        any earlier file, exactly when the parent directory exists. */
    method CreateFile(p: Path, content: Content) returns (ok: bool)
      modifies this`files
      ensures ok == (|p| == 1 || (|p| >= 2 && p[..|p| - 1] in dirs))
      ensures files == if ok then old(files)[p := content] else old(files)
    {
      ok := |p| == 1 || (|p| >= 2 && p[..|p| - 1] in dirs);
      if ok {
        files := files[p := content];
      }
    }

    /** Reading a file: its contents, or nothing when there is no file. */
    method Read(p: Path) returns (r: Option<Content>)
      ensures r == Lookup(files, p)
    {
      r := if p in files then Some(files[p]) else None;
    }

    /** Files another process wrote while this one waited for it. */
    method Overlay(written: map<Path, Content>)
      modifies this`files
      ensures files == old(files) + written
    {
      files := files + written;
    }

    /** `remove_dir_all`: fails when `p` is not a directory; otherwise
        removes it with every directory and file below it. */
    method RemoveDirAll(p: Path) returns (ok: bool)
      modifies this`dirs, this`files
      ensures ok == (p in old(dirs))
      ensures ok ==> dirs == PrunedDirs(old(dirs), p)
      ensures ok ==> files == PrunedFiles(old(files), p)
      ensures !ok ==> dirs == old(dirs) && files == old(files)
    {
      ok := p in dirs;
      if ok {
        dirs := PrunedDirs(dirs, p);
        files := PrunedFiles(files, p);
      }
    }
  }
}
