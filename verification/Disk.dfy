/** The small filesystem both nginx legs work on: a flat map from cleaned path to node. Every call takes a
    flag saying whether a failure is injected; without one it succeeds exactly when the node states allow it. */
module Disk {
  import opened UnixPath

  datatype Node = Dir | File(text: string) | Link(target: string)

  type Disk = map<string, Node>

  predicate IsDir(d: Disk, p: string) {
    p == "/" || (p in d && d[p].Dir?)
  }

  /** The path and its ancestors below the filesystem root, outermost first. */
  function Ancestry(p: string): seq<string> {
    Prefixes(IsAbs(p), Components(p), |Components(p)|)
  }

  function Prefixes(rooted: bool, cs: seq<string>, n: nat): (ps: seq<string>)
    requires n <= |cs|
    ensures |ps| == n && forall i :: 0 <= i < n ==> ps[i] == Render(rooted, cs[..i + 1])
  {
    if n == 0 then [] else Prefixes(rooted, cs, n - 1) + [Render(rooted, cs[..n])]
  }

  /** Creates the missing directories of a list; existing nodes stay as they are. */
  function MakeDirs(d: Disk, ps: seq<string>): (r: Disk)
    ensures forall p :: p in d ==> p in r && r[p] == d[p]
    ensures forall p :: p in r && p !in d ==> p in ps && r[p] == Dir
    ensures forall p :: p in ps ==> p in r
    decreases |ps|
  {
    if ps == [] then d
    else if ps[0] in d then MakeDirs(d, ps[1..])
    else MakeDirs(d[ps[0] := Dir], ps[1..])
  }

  /** No path of the list is taken by something other than a directory. */
  predicate Passable(d: Disk, ps: seq<string>) {
    forall p :: p in ps && p in d ==> d[p].Dir?
  }

  /** `os.MkdirAll`: all ancestors, or a failure that may leave the outermost ones behind. */
  function MkdirAll(d: Disk, path: string, fails: bool, made: nat): (Disk, bool) {
    var ps := Ancestry(path);
    if !fails && Passable(d, ps) then (MakeDirs(d, ps), true)
    else (if made <= |ps| && Passable(d, ps[..made]) then MakeDirs(d, ps[..made]) else d, false)
  }

  /** `os.CreateTemp`: an empty file under a fresh name. */
  function TempPath(dir: string, suffix: string): string {
    dir + "/" + ".rp-nginx-" + suffix
  }

  function CreateTemp(d: Disk, dir: string, suffix: string): (Disk, bool) {
    var p := TempPath(dir, suffix);
    if '/' in suffix || p in d || !IsDir(d, dir) then (d, false) else (d[p := File("")], true)
  }

  /** Writing content; a failed write leaves some prefix. */
  function WriteFile(d: Disk, p: string, text: string, fails: bool, written: nat): (Disk, bool) {
    if p !in d || !d[p].File? then (d, false)
    else if !fails then (d[p := File(text)], true)
    else (d[p := File(text[..if written <= |text| then written else |text|])], false)
  }

  function Rename(d: Disk, from: string, to: string, fails: bool): (Disk, bool) {
    if fails || from !in d || d[from].Dir? || (to in d && d[to].Dir?) then (d, false)
    else ((d - {from})[to := d[from]], true)
  }

  function Remove(d: Disk, p: string, fails: bool): (Disk, bool) {
    if fails || p !in d || d[p].Dir? then (d, false) else (d - {p}, true)
  }

  /** The directory holding a cleaned absolute path: the text before its last slash. */
  function Parent(p: string): string {
    if p == "" then "" else if p[|p| - 1] == '/' then p[..|p| - 1] else Parent(p[..|p| - 1])
  }

  lemma {:induction false} ParentOf(dir: string, name: string)
    requires '/' !in name
    ensures Parent(dir + "/" + name) == dir
    decreases |name|
  {
    var p := dir + "/" + name;
    if name == "" {
      assert p[..|p| - 1] == dir;
    } else {
      assert p[..|p| - 1] == dir + "/" + name[..|name| - 1];
      ParentOf(dir, name[..|name| - 1]);
    }
  }

  function Symlink(d: Disk, target: string, p: string, fails: bool): (Disk, bool) {
    if fails || p in d || !IsDir(d, Parent(p)) then (d, false) else (d[p := Link(target)], true)
  }

  datatype LinkState = Absent | LinkTo(target: string) | NotLink | Unreadable

  /** `os.Lstat` followed by `os.Readlink`. */
  function Inspect(d: Disk, p: string, fails: bool): LinkState {
    if fails then Unreadable
    else if p !in d then Absent
    else if d[p].Link? then LinkTo(d[p].target)
    else NotLink
  }

  // ---------------------------------------------------------------- what nginx sees

  datatype Shown = Shown(text: string) | Broken

  type Snapshot = map<string, Shown>

  predicate DirectlyIn(p: string, dir: string) {
    dir + "/" <= p && '/' !in p[|dir| + 1..]
  }

  /** Behind one name of the enabled directory: a file's text, through at most one link. */
  function Show(d: Disk, p: string): Shown
    requires p in d
  {
    match d[p]
    case File(text) => Shown(text)
    case Link(target) => if target in d && d[target].File? then Shown(d[target].text) else Broken
    case Dir => Broken
  }

  /** The configuration nginx reads when it tests or reloads. */
  function View(d: Disk, dir: string): Snapshot {
    map p | p in d && DirectlyIn(p, dir) :: Show(d, p)
  }
}
