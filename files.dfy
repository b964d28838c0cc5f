/** The host filesystem as the core sees it through Node's `fs` promises API
    and the `makeTempDir` / `rimraf` helpers: regular files with their content
    and mode, and a set of directories. The directory tree itself (parents of
    a path) is not tracked. */
module Files {
  import opened Common

  /** A regular file: its bytes as text and its permission bits once `chmod`
      has set them (`None`: the mode it was created with). */
  datatype FileEntry = FileEntry(content: string, mode: Option<int>)

  /** Node's error messages for the failures the core can meet. */
  function NoEntry(syscall: string, p: Path): Error {
    FsError("ENOENT: no such file or directory, " + syscall + " '" + p + "'")
  }

  function IsDirectory(syscall: string, p: Path): Error {
    FsError("EISDIR: illegal operation on a directory, " + syscall + " '" + p + "'")
  }

  function AlreadyExists(p: Path): Error {
    FsError("EEXIST: file already exists, mkdir '" + p + "'")
  }

  function EntryAt(files: map<Path, FileEntry>, p: Path): Option<FileEntry> {
    if p in files then Some(files[p]) else None
  }

  /** `writeFile(p, content)` on a path that is not a directory: the file is
      created or truncated and refilled; an existing file keeps its mode. */
  function Written(files: map<Path, FileEntry>, p: Path, content: string): (r: map<Path, FileEntry>)
    ensures p in r && r[p].content == content
    ensures forall q :: q != p ==> EntryAt(r, q) == EntryAt(files, q)
  {
    files[p := FileEntry(content, if p in files then files[p].mode else None)]
  }

  /** What `readFile(p)` resolves or rejects with. */
  function Read(files: map<Path, FileEntry>, dirs: set<Path>, p: Path): (r: Outcome<string>)
    ensures r.Done? <==> p in files
    ensures r.Done? ==> r.value == files[p].content
  {
    if p in files then Done(files[p].content)
    else if p in dirs then Threw(IsDirectory("read", p))
    else Threw(NoEntry("open", p))
  }

  /** `copyFile(src, dst)` failures name both paths. */
  function CopyFailed(reason: string, src: Path, dst: Path): Error {
    FsError(reason + ", copyfile '" + src + "' -> '" + dst + "'")
  }

  /** Two file maps that agree on every path are the same map. */
  lemma MapExt(a: map<Path, FileEntry>, b: map<Path, FileEntry>)
    requires forall q :: EntryAt(a, q) == EntryAt(b, q)
    ensures a == b
  {
    assert a.Keys == b.Keys by {
      forall q ensures q in a <==> q in b {
        assert EntryAt(a, q) == EntryAt(b, q);
      }
    }
    forall q | q in a ensures a[q] == b[q] {
      assert EntryAt(a, q) == EntryAt(b, q);
    }
  }

  /** What `rimraf(d)` leaves: everything at or inside `d` is gone. */
  function FilesWithout(files: map<Path, FileEntry>, d: Path): (r: map<Path, FileEntry>)
    ensures forall q :: EntryAt(r, q) == if Under(q, d) then None else EntryAt(files, q)
  {
    map q | q in files && !Under(q, d) :: files[q]
  }

  function DirsWithout(dirs: set<Path>, d: Path): (r: set<Path>)
    ensures forall q :: q in r <==> q in dirs && !Under(q, d)
  {
    set q | q in dirs && !Under(q, d)
  }

  /** `d` is a name nothing in use lies inside or above: it holds no separator
      and is longer than every existing path and every path in `avoid`. */
  ghost predicate Fresh(d: Path, files: map<Path, FileEntry>, dirs: set<Path>, avoid: set<Path>) {
    && '/' !in d
    && (forall p :: p in files ==> |p| < |d|)
    && (forall p :: p in dirs ==> |p| < |d|)
    && (forall p :: p in avoid ==> |p| < |d|)
  }

  /** A separator-free name is inside no shorter path. */
  lemma SlashFreeNotUnder(d: Path, p: Path)
    requires '/' !in d && |p| < |d|
    ensures !Under(d, p)
  {
    assert d[..|p| + 1][|p|] == d[|p|];
  }

  /** A name fresh for a file system is fresh for any part of it. */
  lemma FreshFewer(d: Path, files: map<Path, FileEntry>, dirs: set<Path>, avoid: set<Path>,
                   files': map<Path, FileEntry>, dirs': set<Path>)
    requires Fresh(d, files, dirs, avoid)
    requires files'.Keys <= files.Keys && dirs' <= dirs
    ensures Fresh(d, files', dirs', avoid)
  {
  }

  /** A fresh name and a path in use are never nested. */
  lemma FreshApart(d: Path, files: map<Path, FileEntry>, dirs: set<Path>, avoid: set<Path>, p: Path)
    requires Fresh(d, files, dirs, avoid)
    requires p in files || p in dirs || p in avoid
    ensures !Under(p, d) && !Under(d, p)
  {
    SlashFreeNotUnder(d, p);
  }

  /** Removing a fresh directory keeps every path that is not inside it. */
  lemma {:induction false} FreshRemovalKeeps(d: Path, files: map<Path, FileEntry>, dirs: set<Path>, avoid: set<Path>, p: Path)
    requires Fresh(d, files, dirs, avoid)
    requires p in avoid
    ensures forall q :: Under(q, p) ==> !Under(q, d)
  {
    forall q | Under(q, p) ensures !Under(q, d) {
      if Under(q, d) {
        UnderBoth(q, p, d);
        FreshApart(d, files, dirs, avoid, p);
      }
    }
  }

  /** Removing a fresh directory leaves exactly the files that agree with
      `target` outside it, when `target` names only paths in use or in
      `avoid`. */
  lemma RimrafFresh(left: map<Path, FileEntry>, d: Path, target: map<Path, FileEntry>,
                    files: map<Path, FileEntry>, dirs: set<Path>, avoid: set<Path>)
    requires Fresh(d, files, dirs, avoid)
    requires forall q :: q in target ==> q in files || q in avoid
    requires forall q :: !Under(q, d) ==> EntryAt(left, q) == EntryAt(target, q)
    ensures FilesWithout(left, d) == target
  {
    forall q ensures EntryAt(FilesWithout(left, d), q) == EntryAt(target, q) {
      if Under(q, d) && q in target {
        FreshApart(d, files, dirs, avoid, q);
      }
    }
    MapExt(FilesWithout(left, d), target);
  }

  /** Removing a fresh directory, once made, leaves the directories that
      were there before. */
  lemma FreshDirGone(dirs: set<Path>, d: Path, files: map<Path, FileEntry>, avoid: set<Path>)
    requires Fresh(d, files, dirs, avoid)
    ensures DirsWithout(dirs + {d}, d) == dirs
  {
    forall q | q in dirs ensures !Under(q, d) {
      FreshApart(d, files, dirs, avoid, q);
    }
  }

  /** Removing two fresh directories, once made, leaves the directories
      that were there before. */
  lemma TempDirsGone(dirs: set<Path>, r: Path, g: Path, files: map<Path, FileEntry>, avoid: set<Path>)
    requires Fresh(r, files, dirs, avoid) && Fresh(g, files, dirs, avoid) && r != g
    ensures DirsWithout(DirsWithout(dirs + {r, g}, r), g) == dirs
  {
    forall q | q in dirs ensures !Under(q, r) && !Under(q, g) {
      FreshApart(r, files, dirs, avoid, q);
      FreshApart(g, files, dirs, avoid, q);
    }
    if |r| < |g| {
      SlashFreeNotUnder(g, r);
    } else if |g| < |r| {
      SlashFreeNotUnder(r, g);
    }
  }
  /** Removing two fresh scratch directories restores the directories
      from before they were made and drops whatever was written in them. */
  method RemoveTempDirs(fs: Fs, r: Path, g: Path, ghost files: map<Path, FileEntry>, ghost dirs: set<Path>,
                        ghost avoid: set<Path>)
    requires Fresh(r, files, dirs, avoid) && Fresh(g, files, dirs, avoid) && r != g
    requires fs.dirs == dirs + {r, g}
    modifies fs
    ensures fs.dirs == dirs
    ensures fs.files == FilesWithout(FilesWithout(old(fs.files), r), g)
  {
    fs.Rimraf(r);
    fs.Rimraf(g);
    TempDirsGone(dirs, r, g, files, avoid);
  }


  class Fs {
    var files: map<Path, FileEntry>
    var dirs: set<Path>

    constructor (files0: map<Path, FileEntry>, dirs0: set<Path>)
      ensures files == files0 && dirs == dirs0
    {
      files := files0;
      dirs := dirs0;
    }

    /** `access(p, R_OK)` succeeds. */
    predicate Readable(p: Path)
      reads this
    {
      p in files
    }

    /** `writeFile(p, content)`. */
    method WriteFile(p: Path, content: string) returns (st: Status)
      modifies this
      ensures dirs == old(dirs)
      ensures p in old(dirs) ==> st == Failed(IsDirectory("open", p)) && files == old(files)
      ensures p !in old(dirs) ==> st == Ok && files == Written(old(files), p, content)
    {
      if p in dirs {
        st := Failed(IsDirectory("open", p));
      } else {
        files := Written(files, p, content);
        st := Ok;
      }
    }

    /** `readFile(p, 'utf8')`. */
    method ReadFile(p: Path) returns (r: Outcome<string>)
      ensures r == Read(files, dirs, p)
    {
      if p in files {
        r := Done(files[p].content);
      } else if p in dirs {
        r := Threw(IsDirectory("read", p));
      } else {
        r := Threw(NoEntry("open", p));
      }
    }

    /** `open(p, 'r')`: only a missing path fails (a directory opens). */
    method OpenRead(p: Path) returns (st: Status)
      ensures p in files || p in dirs ==> st == Ok
      ensures p !in files && p !in dirs ==> st == Failed(NoEntry("open", p))
    {
      if p in files || p in dirs {
        st := Ok;
      } else {
        st := Failed(NoEntry("open", p));
      }
    }

    /** `mkdir(p)`: fails when something is already there. */
    method Mkdir(p: Path) returns (st: Status)
      modifies this
      ensures files == old(files)
      ensures p in old(dirs) || p in old(files) ==> st == Failed(AlreadyExists(p)) && dirs == old(dirs)
      ensures p !in old(dirs) && p !in old(files) ==> st == Ok && dirs == old(dirs) + {p}
    {
      if p in dirs || p in files {
        st := Failed(AlreadyExists(p));
      } else {
        dirs := dirs + {p};
        st := Ok;
      }
    }

    /** `mkdir(p, { recursive: true })`: an existing directory is fine. */
    method MkdirRecursive(p: Path) returns (st: Status)
      modifies this
      ensures files == old(files)
      ensures p in old(files) ==> st == Failed(AlreadyExists(p)) && dirs == old(dirs)
      ensures p !in old(files) ==> st == Ok && dirs == old(dirs) + {p}
    {
      if p in files {
        st := Failed(AlreadyExists(p));
      } else {
        dirs := dirs + {p};
        st := Ok;
      }
    }

    /** `rimraf(p)`: removes `p` and everything inside it; a missing path is fine. */
    method Rimraf(p: Path)
      modifies this
      ensures files == FilesWithout(old(files), p)
      ensures dirs == DirsWithout(old(dirs), p)
    {
      files := FilesWithout(files, p);
      dirs := DirsWithout(dirs, p);
    }

    /** `unlink(p)`: a directory is refused with EISDIR, as on Linux. */
    method Unlink(p: Path) returns (st: Status)
      modifies this
      ensures dirs == old(dirs)
      ensures p in old(files) ==> st == Ok && files == old(files) - {p}
      ensures p !in old(files) && p in old(dirs) ==> st == Failed(IsDirectory("unlink", p)) && files == old(files)
      ensures p !in old(files) && p !in old(dirs) ==> st == Failed(NoEntry("unlink", p)) && files == old(files)
    {
      if p in files {
        files := files - {p};
        st := Ok;
      } else if p in dirs {
        st := Failed(IsDirectory("unlink", p));
      } else {
        st := Failed(NoEntry("unlink", p));
      }
    }

    /** `copyFile(src, dst)`: the copy takes the source's content and mode. */
    method CopyFile(src: Path, dst: Path) returns (st: Status)
      modifies this
      ensures dirs == old(dirs)
      ensures src !in old(files) ==>
                st == Failed(CopyFailed("ENOENT: no such file or directory", src, dst)) && files == old(files)
      ensures src in old(files) && dst in old(dirs) ==>
                st == Failed(CopyFailed("EISDIR: illegal operation on a directory", src, dst)) && files == old(files)
      ensures src in old(files) && dst !in old(dirs) ==> st == Ok && files == old(files)[dst := old(files)[src]]
    {
      if src !in files {
        st := Failed(CopyFailed("ENOENT: no such file or directory", src, dst));
      } else if dst in dirs {
        st := Failed(CopyFailed("EISDIR: illegal operation on a directory", src, dst));
      } else {
        files := files[dst := files[src]];
        st := Ok;
      }
    }

    /** `chmod(p, mode)` (directory modes are not tracked). */
    method Chmod(p: Path, mode: int) returns (st: Status)
      modifies this
      ensures dirs == old(dirs)
      ensures p in old(files) ==> st == Ok && files == old(files)[p := FileEntry(old(files)[p].content, Some(mode))]
      ensures p !in old(files) && p in old(dirs) ==> st == Ok && files == old(files)
      ensures p !in old(files) && p !in old(dirs) ==> st == Failed(NoEntry("chmod", p)) && files == old(files)
    {
      if p in files {
        files := files[p := FileEntry(files[p].content, Some(mode))];
        st := Ok;
      } else if p in dirs {
        st := Ok;
      } else {
        st := Failed(NoEntry("chmod", p));
      }
    }

    /** The length of the longest path in use or in `avoid`. */
    method LongestPath(avoid: set<Path>) returns (m: nat)
      ensures forall p :: p in files ==> |p| <= m
      ensures forall p :: p in dirs ==> |p| <= m
      ensures forall p :: p in avoid ==> |p| <= m
    {
      m := 0;
      var rest := files.Keys + dirs + avoid;
      while rest != {}
        invariant rest <= files.Keys + dirs + avoid
        invariant forall p :: p in files.Keys + dirs + avoid && p !in rest ==> |p| <= m
        decreases rest
      {
        var p :| p in rest;
        if |p| > m {
          m := |p|;
        }
        rest := rest - {p};
      }
    }

    /** A name nothing in use is inside or above (the random part of a
        temporary name). */
    method FreshName(avoid: set<Path>) returns (n: string)
      ensures Fresh(n, files, dirs, avoid)
    {
      var m := LongestPath(avoid);
      n := Repeat('t', m + 1);
    }

    /** `makeTempDir()`: a new, empty, uniquely named directory. */
    method MakeTempDir(avoid: set<Path>) returns (d: Path)
      modifies this
      ensures Fresh(d, old(files), old(dirs), avoid)
      ensures files == old(files) && dirs == old(dirs) + {d}
    {
      d := FreshName(avoid);
      dirs := dirs + {d};
    }
  }
}
