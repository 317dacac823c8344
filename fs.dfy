/** The part of the filesystem the resource touches: directories, regular files
    and their contents, the paths where creating something fails, and a log of
    the files written. */
module Fs {

  /** `os.path.join(a, b)` for a relative segment `b`. */
  function Join(a: string, b: string): string {
    a + "/" + b
  }

  class FileSystem {
    var dirs: set<string>
    var files: map<string, string>
    /** Paths where creating a directory or writing a file fails (permissions, a full disk, ...). */
    const denied: set<string>
    /** Every successful write, in order: path and content. */
    var written: seq<(string, string)>

    constructor (dirs0: set<string>, files0: map<string, string>, denied0: set<string>)
      ensures dirs == dirs0 && files == files0 && denied == denied0 && written == []
    {
      dirs := dirs0;
      files := files0;
      denied := denied0;
      written := [];
    }

    /** `os.path.exists(p)`. */
    predicate Exists(p: string)
      reads this
    {
      p in dirs || p in files
    }

    /** `os.path.isfile(p)`. */
    predicate IsFile(p: string)
      reads this
    {
      p in files
    }

    /** `os.makedirs(p)`; fails where creation is denied or a file is in the way. */
    method MakeDirs(p: string) returns (ok: bool)
      modifies this
      ensures ok == (p !in denied && p !in files)
      ensures dirs == if ok then old(dirs) + {p} else old(dirs)
      ensures files == old(files) && written == old(written)
      ensures !ok ==> unchanged(this)
    {
      ok := p !in denied && p !in files;
      if ok {
        dirs := dirs + {p};
      }
    }

    /** `open(p, 'w').write(content)`; fails where creation is denied or `p` is a directory. */
    method Write(p: string, content: string) returns (ok: bool)
      modifies this
      ensures ok == (p !in denied && p !in dirs)
      ensures files == if ok then old(files)[p := content] else old(files)
      ensures written == if ok then old(written) + [(p, content)] else old(written)
      ensures dirs == old(dirs)
      ensures !ok ==> unchanged(this)
    {
      ok := p !in denied && p !in dirs;
      if ok {
        files := files[p := content];
        written := written + [(p, content)];
      }
    }

    /** The repository clone, as its effect only: `dest` now exists and holds the checked-out files. */
    method Populate(dest: string, checkout: map<string, string>)
      modifies this
      ensures dirs == old(dirs) + {dest}
      ensures files == old(files) + checkout
      ensures written == old(written)
    {
      dirs := dirs + {dest};
      files := files + checkout;
    }
  }
}
