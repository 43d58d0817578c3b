/**
 * The vault's file tree and the recursive listing of the files in a folder
 * (`getAllFilesInFolderRecursive`).
 */
module FileTree {

  /** A vault entry: a file, or a folder with its children in vault order. */
  datatype AbstractFile =
    | File(path: string)
    | Folder(path: string, children: seq<AbstractFile>)

  /** The paths of all files below `folder`, depth first, in child order. */
  function AllFilesInFolderRecursive(folder: AbstractFile): seq<string>
    requires folder.Folder?
    decreases folder, 0
  {
    FlatMapChildren(folder.children)
  }

  /** `children.flatMap(...)`: each child's contribution, concatenated. */
  function FlatMapChildren(children: seq<AbstractFile>): seq<string> {
    if children == [] then [] else Contribution(children[0]) + FlatMapChildren(children[1..])
  }

  /** A folder contributes its own recursive listing; a file its path. */
  function Contribution(child: AbstractFile): seq<string>
    decreases child, 1
  {
    if child.Folder? then AllFilesInFolderRecursive(child) else [child.path]
  }

  /** `f` is `n` or lies somewhere below it. */
  ghost predicate Occurs(f: AbstractFile, n: AbstractFile) {
    f == n || (n.Folder? && exists c :: c in n.children && Occurs(f, c))
  }

  /** The number of files at or below `n`. */
  function FileCount(n: AbstractFile): nat {
    match n
    case File(_) => 1
    case Folder(_, cs) => FileCountOf(cs)
  }

  function FileCountOf(cs: seq<AbstractFile>): nat {
    if cs == [] then 0 else FileCount(cs[0]) + FileCountOf(cs[1..])
  }

  /** The listing of a folder is the concatenation, in child order, of what each child contributes. */
  lemma {:induction false} FlatMapAppend(xs: seq<AbstractFile>, ys: seq<AbstractFile>)
    ensures FlatMapChildren(xs + ys) == FlatMapChildren(xs) + FlatMapChildren(ys)
  {
    if xs == [] {
      assert xs + ys == ys;
    } else {
      assert (xs + ys)[0] == xs[0] && (xs + ys)[1..] == xs[1..] + ys;
      FlatMapAppend(xs[1..], ys);
    }
  }

  /** The listing has one entry per file below the folder; an empty folder lists nothing. */
  lemma ListingLength(folder: AbstractFile)
    requires folder.Folder?
    ensures |AllFilesInFolderRecursive(folder)| == FileCount(folder)
    ensures folder.children == [] ==> AllFilesInFolderRecursive(folder) == []
  {
    ListingLengthOf(folder.children);
  }

  lemma {:induction false} ListingLengthOf(cs: seq<AbstractFile>)
    ensures |FlatMapChildren(cs)| == FileCountOf(cs)
  {
    if cs != [] {
      if cs[0].Folder? {
        ListingLengthOf(cs[0].children);
        assert Contribution(cs[0]) == FlatMapChildren(cs[0].children);
      }
      ListingLengthOf(cs[1..]);
    }
  }

  /**
   * Every listed path is the path of a file below the folder; in particular no
   * folder contributes its own path.
   */
  lemma ListedPathsAreFiles(folder: AbstractFile, p: string)
    requires folder.Folder? && p in AllFilesInFolderRecursive(folder)
    ensures exists f: AbstractFile :: f.File? && Occurs(f, folder) && f.path == p
  {
    var c, f := ListedPathOf(folder.children, p);
    assert Occurs(f, folder);
  }

  lemma {:induction false} ListedPathOf(cs: seq<AbstractFile>, p: string) returns (c: AbstractFile, f: AbstractFile)
    requires p in FlatMapChildren(cs)
    ensures c in cs && f.File? && Occurs(f, c) && f.path == p
  {
    assert cs != [];
    if p in Contribution(cs[0]) {
      c := cs[0];
      if c.Folder? {
        assert Contribution(c) == FlatMapChildren(c.children);
        var c', f' := ListedPathOf(c.children, p);
        f := f';
        assert Occurs(f, c);
      } else {
        f := c;
      }
    } else {
      c, f := ListedPathOf(cs[1..], p);
    }
  }

  /** Every file below the folder has its path in the listing. */
  lemma EveryFileListed(folder: AbstractFile, f: AbstractFile)
    requires folder.Folder? && f.File? && Occurs(f, folder)
    ensures f.path in AllFilesInFolderRecursive(folder)
  {
    var c :| c in folder.children && Occurs(f, c);
    FileListedOf(folder.children, c, f);
  }

  lemma {:induction false} FileListedOf(cs: seq<AbstractFile>, c: AbstractFile, f: AbstractFile)
    requires c in cs && f.File? && Occurs(f, c)
    ensures f.path in FlatMapChildren(cs)
    decreases cs, 1
  {
    if c == cs[0] {
      if c.Folder? {
        var c' :| c' in c.children && Occurs(f, c');
        FileListedOf(c.children, c', f);
        assert Contribution(c) == FlatMapChildren(c.children);
      }
    } else {
      FileListedOf(cs[1..], c, f);
    }
  }
}
