/**
 * The part of the Node.js `fs` and `path` modules the services use, over an
 * abstract disk: the set of paths that exist, and the set of directories the
 * operating system refuses to create (no permission, read-only volume).
 */
module FileSystem {
  import opened Shared
  import opened Strings

  /** Index of the last occurrence of `c` in `s`, if any. */
  function LastIndexOf(s: string, c: char): (r: Option<nat>)
    ensures r.None? ==> c !in s
    ensures r.Some? ==> r.value < |s| && s[r.value] == c && c !in s[r.value + 1..]
    decreases |s|
  {
    if s == [] then None
    else if s[|s| - 1] == c then Some(|s| - 1)
    else
      var r := LastIndexOf(s[..|s| - 1], c);
      assert s == s[..|s| - 1] + [s[|s| - 1]];
      r
  }

  /**
   * `path.dirname(p)` for a path without trailing or doubled slashes:
   * everything before the last `/`, `"/"` for a top-level entry and `"."`
   * for a bare name.
   */
  function Dirname(p: string): (d: string)
    ensures '/' !in p ==> d == "."
    ensures '/' in p ==>
      || (d == "/" && p[0] == '/' && '/' !in p[1..])
      || (|d| >= 1 && StartsWith(p, d + "/") && '/' !in p[|d| + 1..])
    ensures d != "." && d != "/" ==> StartsWith(p, d + "/")
  {
    match LastIndexOf(p, '/')
    case None => "."
    case Some(k) =>
      if k == 0 then "/"
      else
        assert p[..k + 1] == p[..k] + "/";
        p[..k]
  }

  /** `path.join(dir, name)` for a directory and a single file name. */
  function Join(dir: string, name: string): (p: string)
    ensures EndsWith(p, name)
    ensures dir != "" ==> StartsWith(p, dir + "/") && |p| == |dir| + 1 + |name|
    ensures dir == "" ==> p == name
  {
    if dir == "" then name else dir + "/" + name
  }

  /**
   * The directories `fs.mkdirSync(dir, { recursive: true })` makes sure of:
   * `dir` itself and each of its ancestors up to (not including) the
   * current directory `.` or the root `/`.
   */
  function Lineage(dir: string): (r: set<string>)
    ensures dir in r
    ensures forall q :: q in r ==> StartsWith(dir, q)
    ensures var up := Dirname(dir); up != "." && up != "/" ==> up in r
    decreases |dir|
  {
    var up := Dirname(dir);
    if up == "." || up == "/" then {dir}
    else {dir} + Lineage(up)
  }

  /** `q` lies at or below the directory `root`. */
  predicate Under(q: string, root: string)
  {
    q == root || StartsWith(q, root + "/")
  }

  /** The message of the error `fs.mkdirSync` throws when it is refused. */
  function MkdirErrorMessage(dir: string): string
  {
    "EACCES: permission denied, mkdir '" + dir + "'"
  }

  class Disk {
    /** The files and directories that exist. */
    var paths: set<string>
    /** The directories whose creation fails. */
    var unwritable: set<string>

    constructor (paths: set<string>, unwritable: set<string>)
      ensures this.paths == paths && this.unwritable == unwritable
    {
      this.paths := paths;
      this.unwritable := unwritable;
    }

    /** `fs.existsSync(p)`. */
    function Exists(p: string): bool
      reads this
    {
      p in paths
    }

    /**
     * `fs.mkdirSync(dir, { recursive: true })`: the directory and every
     * missing ancestor exist afterwards, or the call fails and nothing
     * changes.
     */
    method MakeDirectory(dir: string) returns (err: Option<string>)
      modifies this
      ensures unwritable == old(unwritable)
      ensures err.None? <==> dir !in unwritable
      ensures err.None? ==> paths == old(paths) + Lineage(dir)
      ensures err.Some? ==> paths == old(paths) && err.value == MkdirErrorMessage(dir)
    {
      if dir in unwritable {
        err := Some(MkdirErrorMessage(dir));
      } else {
        paths := paths + Lineage(dir);
        err := None;
      }
    }

    /** The files a child process wrote appear on the disk. */
    method AddFiles(created: set<string>)
      modifies this
      ensures unwritable == old(unwritable)
      ensures paths == old(paths) + created
    {
      paths := paths + created;
    }

    /** `fs.rm(root, { recursive: true, force: true })` when it succeeds. */
    method RemoveTree(root: string)
      modifies this
      ensures unwritable == old(unwritable)
      ensures paths == set q | q in old(paths) && !Under(q, root)
      ensures root !in paths
    {
      paths := set q | q in paths && !Under(q, root);
    }
  }

  /** Making sure of `dir` fails: it is absent and cannot be created. */
  predicate Refuses(paths: set<string>, unwritable: set<string>, dir: string)
  {
    dir !in paths && dir in unwritable
  }

  /**
   * The existing paths once `dir` has been made sure of: unchanged when it
   * exists, otherwise with it and its missing ancestors added.
   */
  function WithDirectory(paths: set<string>, dir: string): (r: set<string>)
    ensures paths <= r && dir in r
    ensures dir in paths ==> r == paths
    ensures forall q :: q in r - paths ==> StartsWith(dir, q)
  {
    if dir in paths then paths else paths + Lineage(dir)
  }

  /** The existing paths once the directory of `outputPath` has been made sure of. */
  function WithParent(paths: set<string>, outputPath: string): (r: set<string>)
    ensures paths <= r && Dirname(outputPath) in r
    ensures Dirname(outputPath) in paths ==> r == paths
    ensures forall q :: q in r - paths ==> StartsWith(Dirname(outputPath), q)
  {
    WithDirectory(paths, Dirname(outputPath))
  }

  /** The directory of an output path exists, creating it when it is absent. */
  method EnsureParent(disk: Disk, outputPath: string) returns (err: Option<string>)
    modifies disk
    ensures disk.unwritable == old(disk.unwritable)
    ensures var dir := Dirname(outputPath);
      if Refuses(old(disk.paths), disk.unwritable, dir)
      then err == Some(MkdirErrorMessage(dir)) && disk.paths == old(disk.paths)
      else err.None? && disk.paths == WithParent(old(disk.paths), outputPath)
    ensures err.None? ==> Dirname(outputPath) in disk.paths
  {
    var dir := Dirname(outputPath);
    if !disk.Exists(dir) {
      err := disk.MakeDirectory(dir);
    } else {
      err := None;
    }
  }
}
