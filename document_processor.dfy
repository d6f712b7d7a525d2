/** Loading documents from a directory tree: the exclude-pattern matcher, the walk that prunes
    excluded directories, and the suffix filter. A path is the sequence of its components below
    the file system root; `fnmatch` is an oracle `fnmatch(name, pattern)`. */
module DocumentProcessor {
  import opened Wrappers
  import opened Strings

  type Path = seq<string>

  /** A file system entry. A file whose text cannot be read has no content. */
  datatype Node =
    | File(name: string, content: Option<string>, size: int, modified: real)
    | Dir(name: string, children: seq<Node>)

  datatype Document = Document(content: string, filePath: string, fileType: string, size: int, modified: real)

  /** The processor's configuration: `set(file_types)` and `exclude_patterns`. */
  datatype Processor = Processor(fileTypes: set<string>, excludePatterns: seq<string>)

  /** `Path.name`: the last component, or "" for the root. */
  function Name(p: Path): string
  {
    if p == [] then "" else p[|p| - 1]
  }

  /** `str(path)` of an absolute path. */
  function PathString(p: Path): string
  {
    "/" + Join(p, "/")
  }

  /** `Path.suffix`: from the last '.' of the name, provided that dot is neither the first nor
      the last character; otherwise "". */
  function Suffix(name: string): (r: string)
    ensures r == "" || (|r| >= 2 && r[0] == '.' && EndsWith(name, r))
    ensures r != "" ==> forall k :: 1 <= k < |r| ==> r[k] != '.'
    ensures r != "" ==> |r| < |name|
  {
    var i := RFind(name, ".", 0, |name|);
    if 0 < i < |name| - 1 then
      assert forall k :: i < k < |name| ==> !OccursAt(name, ".", k);
      assert forall k :: i < k < |name| && name[k] == '.' ==> name[k..k + 1] == "." && OccursAt(name, ".", k);
      name[i..]
    else ""
  }

  /** The one-character string "." occurs exactly where the name has a dot. */
  lemma DotAt(name: string, k: int)
    ensures OccursAt(name, ".", k) <==> 0 <= k < |name| && name[k] == '.'
  {
    if 0 <= k < |name| {
      assert name[k..k + 1] == [name[k]];
    }
  }

  /** The converse: the suffix is decided by the last dot of the name. When that dot is neither
      the first nor the last character the suffix runs from it to the end; otherwise, and when
      the name has no dot at all, there is none. */
  lemma {:induction false} SuffixAtLastDot(name: string, i: int)
    requires -1 <= i < |name|
    requires i >= 0 ==> name[i] == '.'
    requires forall k :: i < k < |name| ==> name[k] != '.'
    ensures 0 < i < |name| - 1 ==> Suffix(name) == name[i..]
    ensures !(0 < i < |name| - 1) ==> Suffix(name) == ""
  {
    var j := RFind(name, ".", 0, |name|);
    if i >= 0 {
      DotAt(name, i);
    }
    if j >= 0 {
      DotAt(name, j);
    }
    assert j == i;
  }


  predicate IsPrefix(base: Path, p: Path)
  {
    |base| <= |p| && p[..|base|] == base
  }

  /** `str(relative).replace("\\", "/")`; the empty relative path prints as ".". */
  function RelString(rel: Path): string
  {
    if rel == [] then "." else ReplaceChar(Join(rel, "/"), '\\', '/')
  }

  /** The names of `relative.parents`, nearest first; the last parent is "." with name "". */
  function ParentNames(rel: Path): seq<string>
  {
    if rel == [] then [] else PrefixNames(rel[..|rel| - 1])
  }

  /** The names of `q`, `q.parent`, ..., down to "." (named ""). */
  function PrefixNames(q: Path): (ns: seq<string>)
    ensures |ns| == |q| + 1
    ensures forall k :: 0 <= k < |q| ==> ns[|q| - 1 - k] == q[k]
    decreases |q|
  {
    if q == [] then [""] else [q[|q| - 1]] + PrefixNames(q[..|q| - 1])
  }

  /** The loop over `relative.parents`: some parent's name is the directory name or matches it. */
  predicate ParentHit(parents: seq<string>, dirPattern: string, fnmatch: (string, string) -> bool)
  {
    if parents == [] then false
    else parents[0] == dirPattern || fnmatch(parents[0], dirPattern)
         || ParentHit(parents[1..], dirPattern, fnmatch)
  }

  /** One pattern's test in `_should_exclude`. */
  predicate PatternExcludes(path: Path, rel: Path, pattern: string, fnmatch: (string, string) -> bool)
  {
    || fnmatch(RelString(rel), pattern)
    || (EndsWith(pattern, "/")
        && (Name(path) == RStrip(pattern, '/')
            || ParentHit(ParentNames(rel), RStrip(pattern, '/'), fnmatch)))
  }

  /** The loop over `exclude_patterns`, returning at the first pattern that excludes. */
  predicate ExcludedBy(path: Path, rel: Path, patterns: seq<string>, fnmatch: (string, string) -> bool)
  {
    if patterns == [] then false
    else PatternExcludes(path, rel, patterns[0], fnmatch) || ExcludedBy(path, rel, patterns[1..], fnmatch)
  }

  /** `_should_exclude(path, base)`: a path outside `base` makes `relative_to` raise, which
      answers false. */
  predicate ShouldExclude(proc: Processor, path: Path, base: Path, fnmatch: (string, string) -> bool)
  {
    IsPrefix(base, path) && ExcludedBy(path, path[|base|..], proc.excludePatterns, fnmatch)
  }

  lemma {:induction false} ParentHitIff(parents: seq<string>, dirPattern: string, fnmatch: (string, string) -> bool)
    ensures ParentHit(parents, dirPattern, fnmatch) <==>
      exists k :: 0 <= k < |parents| && (parents[k] == dirPattern || fnmatch(parents[k], dirPattern))
    decreases |parents|
  {
    if parents != [] {
      ParentHitIff(parents[1..], dirPattern, fnmatch);
      assert forall k :: 1 <= k < |parents| ==> parents[1..][k - 1] == parents[k];
    }
  }

  lemma {:induction false} ExcludedByIff(path: Path, rel: Path, patterns: seq<string>, fnmatch: (string, string) -> bool)
    ensures ExcludedBy(path, rel, patterns, fnmatch) <==>
      exists i :: 0 <= i < |patterns| && PatternExcludes(path, rel, patterns[i], fnmatch)
    decreases |patterns|
  {
    if patterns != [] {
      ExcludedByIff(path, rel, patterns[1..], fnmatch);
      assert forall i :: 1 <= i < |patterns| ==> patterns[1..][i - 1] == patterns[i];
    }
  }

  /** A path is excluded exactly when it lies under `base` and some pattern excludes it; so a
      path elsewhere, or an empty pattern list, excludes nothing. */
  lemma ShouldExcludeIff(proc: Processor, path: Path, base: Path, fnmatch: (string, string) -> bool)
    ensures ShouldExclude(proc, path, base, fnmatch) <==>
      IsPrefix(base, path)
      && exists i :: 0 <= i < |proc.excludePatterns| && PatternExcludes(path, path[|base|..], proc.excludePatterns[i], fnmatch)
    ensures !IsPrefix(base, path) || proc.excludePatterns == [] ==> !ShouldExclude(proc, path, base, fnmatch)
  {
    if IsPrefix(base, path) {
      ExcludedByIff(path, path[|base|..], proc.excludePatterns, fnmatch);
    }
  }

  /** A directory pattern `d/` excludes a path below `base` when the path's own name, or the
      name of any directory between `base` and it, is `d` or matches `d`. A relative path
      that fnmatches the pattern is excluded too. */
  lemma DirectoryPatternExcludes(proc: Processor, path: Path, base: Path, fnmatch: (string, string) -> bool,
                                 i: nat, k: nat)
    requires IsPrefix(base, path) && i < |proc.excludePatterns|
    requires EndsWith(proc.excludePatterns[i], "/")
    requires |base| <= k < |path| - 1
    requires var d := RStrip(proc.excludePatterns[i], '/'); path[k] == d || fnmatch(path[k], d)
    ensures ShouldExclude(proc, path, base, fnmatch)
  {
    var rel := path[|base|..];
    var d := RStrip(proc.excludePatterns[i], '/');
    var q := rel[..|rel| - 1];
    var j := k - |base|;
    assert q[j] == path[k];
    ParentHitIff(ParentNames(rel), d, fnmatch);
    assert ParentNames(rel)[|q| - 1 - j] == path[k];
    ShouldExcludeIff(proc, path, base, fnmatch);
  }

  lemma OwnNameExcludes(proc: Processor, path: Path, base: Path, fnmatch: (string, string) -> bool, i: nat)
    requires IsPrefix(base, path) && i < |proc.excludePatterns|
    requires EndsWith(proc.excludePatterns[i], "/") && Name(path) == RStrip(proc.excludePatterns[i], '/')
    ensures ShouldExclude(proc, path, base, fnmatch)
  {
    ShouldExcludeIff(proc, path, base, fnmatch);
  }

  lemma PatternMatchExcludes(proc: Processor, path: Path, base: Path, fnmatch: (string, string) -> bool, i: nat)
    requires IsPrefix(base, path) && i < |proc.excludePatterns|
    requires fnmatch(RelString(path[|base|..]), proc.excludePatterns[i])
    ensures ShouldExclude(proc, path, base, fnmatch)
  {
    ShouldExcludeIff(proc, path, base, fnmatch);
  }

  /** The files of one directory listing that `_iter_files` yields: not excluded and with a
      listed suffix. */
  function FilesIn(proc: Processor, fnmatch: (string, string) -> bool, base: Path, cs: seq<Node>, at: Path)
    : seq<Path>
    decreases |cs|
  {
    if cs == [] then []
    else
      var rest := FilesIn(proc, fnmatch, base, cs[1..], at);
      var fp := at + [cs[0].name];
      if cs[0].File? && !ShouldExclude(proc, fp, base, fnmatch) && Suffix(cs[0].name) in proc.fileTypes
      then [fp] + rest
      else rest
  }

  /** `os.walk` from directory `n` at path `at`, top-down: this directory's files, then each
      subdirectory that survives the `dirs[:]` pruning, in listing order. */
  function WalkDir(proc: Processor, fnmatch: (string, string) -> bool, base: Path, n: Node, at: Path)
    : seq<Path>
    requires n.Dir?
    decreases n, 1, 0
  {
    FilesIn(proc, fnmatch, base, n.children, at) + Descend(proc, fnmatch, base, n, at, 0)
  }

  function Descend(proc: Processor, fnmatch: (string, string) -> bool, base: Path, n: Node, at: Path, i: nat)
    : seq<Path>
    requires n.Dir? && i <= |n.children|
    decreases n, 0, |n.children| - i
  {
    if i == |n.children| then []
    else
      var c := n.children[i];
      var sub := at + [c.name];
      (if c.Dir? && !ShouldExclude(proc, sub, base, fnmatch) then WalkDir(proc, fnmatch, base, c, sub) else [])
      + Descend(proc, fnmatch, base, n, at, i + 1)
  }

  /** The entry at `p` below `root`, taking the first child of each name. */
  function Lookup(root: Node, p: Path): Option<Node>
    decreases |p|
  {
    if p == [] then Some(root)
    else if root.File? then None
    else
      var i := ChildIndex(root.children, p[0]);
      if i == -1 then None else Lookup(root.children[i], p[1..])
  }

  function ChildIndex(cs: seq<Node>, name: string): (i: int)
    ensures i == -1 || (0 <= i < |cs| && cs[i].name == name)
  {
    if cs == [] then -1
    else if cs[0].name == name then 0
    else
      var i := ChildIndex(cs[1..], name);
      if i == -1 then -1 else i + 1
  }

  /** `_iter_files(directory)`: the walk from the entry at `directory`; walking a file, or a
      missing entry, yields nothing. */
  function IterFiles(proc: Processor, fnmatch: (string, string) -> bool, root: Node, directory: Path): seq<Path>
  {
    match Lookup(root, directory)
    case Some(n) => if n.Dir? then WalkDir(proc, fnmatch, directory, n, directory) else []
    case None => []
  }

  /** What `_iter_files` can yield below `at`: a path under `at`, with a listed suffix, not
      excluded, and reached only through directories that are not excluded. */
  ghost predicate Admitted(proc: Processor, fnmatch: (string, string) -> bool, base: Path, at: Path, q: Path)
  {
    && |at| < |q| && q[..|at|] == at
    && Suffix(Name(q)) in proc.fileTypes
    && !ShouldExclude(proc, q, base, fnmatch)
    && (forall k :: |at| < k < |q| ==> !ShouldExclude(proc, q[..k], base, fnmatch))
  }

  lemma {:induction false} FilesInAdmitted(proc: Processor, fnmatch: (string, string) -> bool, base: Path,
                                           cs: seq<Node>, at: Path)
    ensures forall q :: q in FilesIn(proc, fnmatch, base, cs, at) ==> Admitted(proc, fnmatch, base, at, q)
    decreases |cs|
  {
    if cs != [] {
      FilesInAdmitted(proc, fnmatch, base, cs[1..], at);
      var fp := at + [cs[0].name];
      assert fp[..|at|] == at;
    }
  }

  /** Entering a subdirectory that is not excluded keeps what it yields admitted one level up. */
  lemma AdmittedLift(proc: Processor, fnmatch: (string, string) -> bool, base: Path, at: Path, name: string, q: Path)
    requires !ShouldExclude(proc, at + [name], base, fnmatch)
    requires Admitted(proc, fnmatch, base, at + [name], q)
    ensures Admitted(proc, fnmatch, base, at, q)
  {
    var sub := at + [name];
    assert q[..|at|] == sub[..|at|] == at;
    forall k | |at| < k < |q| ensures !ShouldExclude(proc, q[..k], base, fnmatch) {
      if k == |at| + 1 { assert q[..k] == sub; }
    }
  }

  lemma {:induction false} WalkDirAdmitted(proc: Processor, fnmatch: (string, string) -> bool, base: Path,
                                           n: Node, at: Path)
    requires n.Dir?
    ensures forall q :: q in WalkDir(proc, fnmatch, base, n, at) ==> Admitted(proc, fnmatch, base, at, q)
    decreases n, 1, 0
  {
    FilesInAdmitted(proc, fnmatch, base, n.children, at);
    DescendAdmitted(proc, fnmatch, base, n, at, 0);
  }

  lemma {:induction false} DescendAdmitted(proc: Processor, fnmatch: (string, string) -> bool, base: Path,
                                           n: Node, at: Path, i: nat)
    requires n.Dir? && i <= |n.children|
    ensures forall q :: q in Descend(proc, fnmatch, base, n, at, i) ==> Admitted(proc, fnmatch, base, at, q)
    decreases n, 0, |n.children| - i
  {
    if i < |n.children| {
      var c := n.children[i];
      var sub := at + [c.name];
      DescendAdmitted(proc, fnmatch, base, n, at, i + 1);
      if c.Dir? && !ShouldExclude(proc, sub, base, fnmatch) {
        WalkDirAdmitted(proc, fnmatch, base, c, sub);
        forall q | q in WalkDir(proc, fnmatch, base, c, sub) ensures Admitted(proc, fnmatch, base, at, q) {
          AdmittedLift(proc, fnmatch, base, at, c.name, q);
        }
      }
    }
  }

  /** `_iter_files` yields only paths below the directory with a listed suffix that are not
      excluded, and never enters an excluded directory. */
  lemma IterFilesAdmitted(proc: Processor, fnmatch: (string, string) -> bool, root: Node, directory: Path, q: Path)
    requires q in IterFiles(proc, fnmatch, root, directory)
    ensures Admitted(proc, fnmatch, directory, directory, q)
  {
    var n := Lookup(root, directory).value;
    WalkDirAdmitted(proc, fnmatch, directory, n, directory);
  }

  /** `load_file`: None for a missing path, for a suffix outside `file_types`, and when reading
      fails (a directory, unreadable text). */
  function LoadFile(proc: Processor, root: Node, p: Path): (r: Option<Document>)
    ensures Lookup(root, p).None? || Suffix(Name(p)) !in proc.fileTypes ==> r.None?
    ensures r.Some? ==>
      && Lookup(root, p).Some? && Lookup(root, p).value.File?
      && Lookup(root, p).value.content == Some(r.value.content)
      && r.value.fileType == Suffix(Name(p)) && r.value.fileType in proc.fileTypes
      && r.value.filePath == PathString(p)
  {
    match Lookup(root, p)
    case None => None
    case Some(n) =>
      if Suffix(Name(p)) !in proc.fileTypes then None
      else if n.Dir? || n.content.None? then None
      else Some(Document(n.content.value, PathString(p), Suffix(Name(p)), n.size, n.modified))
  }

  /** The documents `load_directory` keeps from the paths in `ps`, in order. */
  function LoadAll(proc: Processor, root: Node, ps: seq<Path>): (docs: seq<Document>)
    ensures |docs| <= |ps|
  {
    if ps == [] then []
    else
      var prev := LoadAll(proc, root, ps[..|ps| - 1]);
      match LoadFile(proc, root, ps[|ps| - 1])
      case Some(d) => prev + [d]
      case None => prev
  }

  /** `load_directory`: loads each path the walk yields and keeps the documents that load. */
  method LoadDirectory(proc: Processor, fnmatch: (string, string) -> bool, root: Node, directory: Path)
    returns (docs: seq<Document>)
    ensures docs == LoadAll(proc, root, IterFiles(proc, fnmatch, root, directory))
    ensures Lookup(root, directory).None? ==> docs == []
  {
    if Lookup(root, directory).None? {
      return [];
    }
    docs := LoadPaths(proc, root, IterFiles(proc, fnmatch, root, directory));
  }

  /** The loop of `load_directory` over the walked paths. */
  method LoadPaths(proc: Processor, root: Node, paths: seq<Path>) returns (docs: seq<Document>)
    ensures docs == LoadAll(proc, root, paths)
  {
    docs := [];
    for i := 0 to |paths|
      invariant docs == LoadAll(proc, root, paths[..i])
    {
      assert paths[..i + 1][..i] == paths[..i];
      var doc := LoadFile(proc, root, paths[i]);
      if doc.Some? {
        docs := docs + [doc.value];
      }
    }
    assert paths[..|paths|] == paths;
  }
}
