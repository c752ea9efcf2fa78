/**
 * The directory and file paths the settings module derives, when it is loaded,
 * from the directory the agent was started in, using POSIX `os.path.join`.
 */
module AgentPaths {
  import opened Wrappers

  predicate NoSlash(s: string) {
    '/' !in s
  }

  predicate AllSlashes(s: string) {
    forall c :: c in s ==> c == '/'
  }

  /** One path component: a non-empty name without a separator. */
  predicate IsComponent(c: string) {
    |c| > 0 && NoSlash(c)
  }

  /**
   * A directory in the form `os.getcwd()` gives: no trailing separator, unless it
   * consists of separators only (the root "/").
   */
  predicate IsDirectory(d: string) {
    |d| == 0 || d[|d| - 1] != '/' || AllSlashes(d)
  }

  /** POSIX `os.path.join(a, b)`. */
  function PathJoin(a: string, b: string): (r: string)
    ensures |b| > 0 && b[0] == '/' ==> r == b
  {
    if |b| > 0 && b[0] == '/' then b
    else if |a| == 0 || a[|a| - 1] == '/' then a + b
    else a + "/" + b
  }

  /** A joined path always ends in its second part. */
  lemma JoinEndsWith(a: string, b: string)
    ensures |b| <= |PathJoin(a, b)| && PathJoin(a, b)[|PathJoin(a, b)| - |b|..] == b
  {
  }

  /** The text `os.path.join(d, ...)` puts in front of a relative path. */
  function DirPrefix(d: string): string {
    if |d| == 0 || d[|d| - 1] == '/' then d else d + "/"
  }

  /** `p.rfind('/')`: the index of the last separator, or -1 when there is none. */
  function LastSlash(p: string): (r: int)
    ensures -1 <= r < |p|
    ensures r >= 0 ==> p[r] == '/'
    ensures forall i :: r < i < |p| ==> p[i] != '/'
  {
    if |p| == 0 then -1
    else if p[|p| - 1] == '/' then |p| - 1
    else LastSlash(p[..|p| - 1])
  }

  /** `s.rstrip('/')`: the longest prefix that does not end in a separator; only separators are cut. */
  function StripTrailingSlashes(s: string): (r: string)
    ensures r <= s
    ensures |r| == 0 || r[|r| - 1] != '/'
    ensures AllSlashes(s[|r|..])
  {
    if |s| > 0 && s[|s| - 1] == '/' then
      var r := StripTrailingSlashes(s[..|s| - 1]);
      assert s[|r|..] == s[..|s| - 1][|r|..] + "/";
      r
    else s
  }

  /** POSIX `os.path.dirname`. */
  function Dirname(p: string): string {
    var head := p[..LastSlash(p) + 1];
    if |head| > 0 && !AllSlashes(head) then StripTrailingSlashes(head) else head
  }

  /** POSIX `os.path.basename`. */
  function Basename(p: string): string {
    p[LastSlash(p) + 1..]
  }

  /** Appending separator-free text does not move the last separator. */
  lemma {:induction false} LastSlashAppend(x: string, c: string)
    requires NoSlash(c)
    ensures LastSlash(x + c) == LastSlash(x)
  {
    if |c| > 0 {
      var init := c[..|c| - 1];
      assert (x + c)[..|x + c| - 1] == x + init;
      LastSlashAppend(x, init);
    } else {
      assert x + c == x;
    }
  }

  /**
   * Joining a directory with one component gives a directory again, whose parent
   * is the directory and whose last component is the component.
   */
  lemma ChildPath(d: string, c: string)
    requires IsDirectory(d) && IsComponent(c)
    ensures IsDirectory(PathJoin(d, c))
    ensures Dirname(PathJoin(d, c)) == d
    ensures Basename(PathJoin(d, c)) == c
  {
    var p := PathJoin(d, c);
    var pre := DirPrefix(d);
    assert p == pre + c;
    LastSlashAppend(pre, c);
    var k := LastSlash(p);
    if |d| == 0 {
      assert pre == "" && k == -1;
      assert p[..k + 1] == "";
    } else if d[|d| - 1] == '/' {
      assert pre == d && AllSlashes(d);
      assert k == |d| - 1;
      assert p[..k + 1] == d;
    } else {
      assert pre == d + "/";
      assert k == |d|;
      assert p[..k + 1] == pre;
      assert !AllSlashes(pre) by { assert pre[|d| - 1] in pre; }
      assert pre[..|pre| - 1] == d;
      assert StripTrailingSlashes(pre) == StripTrailingSlashes(d) == d;
    }
    assert p[k + 1..] == c;
  }

  // The module-level paths of settings.py, each a function of the starting directory,
  // which is also the agent directory.

  const DbFilename := "agent.adb"
  const ServerCertFile := "server.crt"

  function BinDirectory(start: string): string { PathJoin(start, "bin") }
  function DbDirectory(start: string): string { PathJoin(start, "db") }
  function AgentDb(start: string): string { PathJoin(DbDirectory(start), DbFilename) }
  function EtcDirectory(start: string): string { PathJoin(start, "etc") }
  function LogDirectory(start: string): string { PathJoin(start, "logs") }
  function TempDirectory(start: string): string { PathJoin(start, "tmp") }
  function CertsDirectory(start: string): string { PathJoin(EtcDirectory(start), "certs") }
  function PluginDirectory(start: string): string { PathJoin(start, "plugins") }
  function UpdatesDirectory(start: string): string { PathJoin(TempDirectory(start), "updates") }
  function ServerCert(start: string): string { PathJoin(CertsDirectory(start), ServerCertFile) }
  function OperationQueueFile(start: string): string { PathJoin(EtcDirectory(start), ".oqd") }
  function ResultQueueFile(start: string): string { PathJoin(EtcDirectory(start), ".rqd") }
  function RebootFile(start: string): string { PathJoin(EtcDirectory(start), ".reboot") }
  function ShutdownFile(start: string): string { PathJoin(EtcDirectory(start), ".shutdown") }
  function UptimeFile(start: string): string { PathJoin(EtcDirectory(start), ".last_uptime") }
  function UpdateFile(start: string): string { PathJoin(EtcDirectory(start), ".agent_update") }

  /** Joining a relative name appends it after the directory's prefix. */
  lemma JoinRelative(d: string, c: string)
    requires |c| > 0 && c[0] != '/'
    ensures PathJoin(d, c) == DirPrefix(d) + c
  {
  }

  /** The paths the module derives, one name for each. */
  datatype DerivedPath =
    | Bin | Db | AgentDbFile | Etc | Logs | Temp | Certs | Plugins | Updates | ServerCertFilePath
    | OperationQueue | ResultQueue | Reboot | Shutdown | Uptime | Update

  function PathOf(start: string, w: DerivedPath): string {
    match w
    case Bin => BinDirectory(start)
    case Db => DbDirectory(start)
    case AgentDbFile => AgentDb(start)
    case Etc => EtcDirectory(start)
    case Logs => LogDirectory(start)
    case Temp => TempDirectory(start)
    case Certs => CertsDirectory(start)
    case Plugins => PluginDirectory(start)
    case Updates => UpdatesDirectory(start)
    case ServerCertFilePath => ServerCert(start)
    case OperationQueue => OperationQueueFile(start)
    case ResultQueue => ResultQueueFile(start)
    case Reboot => RebootFile(start)
    case Shutdown => ShutdownFile(start)
    case Uptime => UptimeFile(start)
    case Update => UpdateFile(start)
  }

  predicate IsMarker(w: DerivedPath) {
    w.OperationQueue? || w.ResultQueue? || w.Reboot? || w.Shutdown? || w.Uptime? || w.Update?
  }

  /** The derived directory a path is joined onto; None for the starting directory itself. */
  function Parent(w: DerivedPath): Option<DerivedPath> {
    match w
    case AgentDbFile => Some(Db)
    case Certs => Some(Etc)
    case ServerCertFilePath => Some(Certs)
    case Updates => Some(Temp)
    case _ => if IsMarker(w) then Some(Etc) else None
  }

  /** How many derived directories lie between the starting directory and the path. */
  function Depth(w: DerivedPath): nat {
    match Parent(w)
    case None => 0
    case Some(p) => if p.Certs? then 2 else 1
  }

  /** The directory a path is placed in. */
  function ParentOf(start: string, w: DerivedPath): string {
    match Parent(w)
    case None => start
    case Some(p) => PathOf(start, p)
  }

  /** The last component of each path. */
  function NameOf(w: DerivedPath): string {
    match w
    case Bin => "bin"
    case Db => "db"
    case AgentDbFile => DbFilename
    case Etc => "etc"
    case Logs => "logs"
    case Temp => "tmp"
    case Certs => "certs"
    case Plugins => "plugins"
    case Updates => "updates"
    case ServerCertFilePath => ServerCertFile
    case OperationQueue => ".oqd"
    case ResultQueue => ".rqd"
    case Reboot => ".reboot"
    case Shutdown => ".shutdown"
    case Uptime => ".last_uptime"
    case Update => ".agent_update"
  }

  /** Each path relative to the starting directory: the names on the way down, separated by '/'. */
  function RelativePath(w: DerivedPath): (r: string)
    ensures |r| > 0 && r[0] != '/' && r[|r| - 1] != '/'
    decreases Depth(w)
  {
    match Parent(w)
    case None => NameOf(w)
    case Some(p) =>
      var name := NameOf(w);
      assert name[|name| - 1] != '/';
      RelativePath(p) + "/" + name
  }

  /** Every derived path is its parent joined with its name. */
  lemma PathIsJoined(start: string, w: DerivedPath)
    ensures IsComponent(NameOf(w))
    ensures PathOf(start, w) == PathJoin(ParentOf(start, w), NameOf(w))
  {
  }

  /** A directory joined with one component is a directory again. */
  lemma DirectoryChild(d: string, c: string)
    requires IsDirectory(d) && IsComponent(c)
    ensures IsDirectory(PathJoin(d, c))
  {
    var p := PathJoin(d, c);
    assert p[|p| - 1] == c[|c| - 1];
  }

  /** Every derived path, and so every directory a path is placed in, is in the form `os.getcwd()` gives. */
  lemma {:induction false} PathIsDirectory(start: string, w: DerivedPath)
    requires IsDirectory(start)
    ensures IsDirectory(ParentOf(start, w))
    ensures IsDirectory(PathOf(start, w))
    decreases Depth(w)
  {
    if Parent(w).Some? {
      PathIsDirectory(start, Parent(w).value);
    }
    PathIsJoined(start, w);
    DirectoryChild(ParentOf(start, w), NameOf(w));
  }

  /**
   * The derived paths form a tree under the starting directory: each path's parent
   * directory (`os.path.dirname`) and last component (`os.path.basename`) are those
   * it was joined from. So the database file lies in `db`, the certs directory and
   * every marker file in `etc`, the server certificate in `etc/certs` and the
   * updates directory in `tmp`.
   */
  lemma LayoutTree(start: string, w: DerivedPath)
    requires IsDirectory(start)
    ensures Dirname(PathOf(start, w)) == ParentOf(start, w)
    ensures Basename(PathOf(start, w)) == NameOf(w)
  {
    PathIsJoined(start, w);
    PathIsDirectory(start, w);
    ChildPath(ParentOf(start, w), NameOf(w));
  }

  lemma JoinOntoText(pre: string, rel: string, name: string)
    requires |rel| > 0 && rel[|rel| - 1] != '/'
    requires |name| > 0 && name[0] != '/'
    ensures PathJoin(pre + rel, name) == pre + (rel + "/" + name)
  {
    var d := pre + rel;
    assert d[|d| - 1] == rel[|rel| - 1];
    assert d + "/" + name == pre + (rel + "/" + name);
  }

  /** One step down the tree: a path's text extends its parent's by a separator and its name. */
  lemma SpelledOutStep(start: string, w: DerivedPath, p: DerivedPath)
    requires Parent(w) == Some(p)
    requires PathOf(start, p) == DirPrefix(start) + RelativePath(p)
    ensures PathOf(start, w) == DirPrefix(start) + RelativePath(w)
  {
    PathIsJoined(start, w);
    JoinOntoText(DirPrefix(start), RelativePath(p), NameOf(w));
  }

  /** Every derived path is the starting directory followed by its relative path. */
  lemma {:induction false} LayoutSpelledOut(start: string, w: DerivedPath)
    ensures PathOf(start, w) == DirPrefix(start) + RelativePath(w)
    decreases Depth(w)
  {
    match Parent(w)
    case None =>
      PathIsJoined(start, w);
      JoinRelative(start, NameOf(w));
    case Some(p) =>
      LayoutSpelledOut(start, p);
      SpelledOutStep(start, w, p);
  }

  /** The marker files all lie in `etc`. */
  lemma MarkersInEtc(start: string, w: DerivedPath)
    requires IsDirectory(start) && IsMarker(w)
    ensures Dirname(PathOf(start, w)) == PathOf(start, Etc)
  {
    LayoutTree(start, w);
  }
}
