/**
 * The remote end of an `ftplib.FTP` session, reduced to what the core relies
 * on: a tree of directories, the files stored in it, the current directory
 * of the session and the trace of commands it was sent with their outcome.
 * Paths are sequences of directory names from the root; `.` and `..` are not
 * interpreted.
 */
module Ftp {
  import opened Text

  type Path = seq<string>

  /** Host, user name and password: what `FTP(host, user, passwd)` connects with. */
  datatype Credentials = Credentials(host: string, user: string, password: string)

  datatype Command =
    | Open(credentials: Credentials)   // FTP(host, user, passwd): connect and log in
    | Cwd(dir: string)
    | Mkd(dir: string)
    | Stor(target: string)
    | Quit                             // leaving the `with` block

  /** A command together with whether the server accepted it. */
  datatype Reply = Reply(command: Command, ok: bool)

  /** Everything the server knows: its one account, its directories and files, and the session. */
  datatype Remote = Remote(account: Credentials, dirs: set<Path>, files: map<Path, string>,
                           cwd: Path, connected: bool, trace: seq<Reply>)

  /** The state after a sequence of session calls, and whether one of them raised out of it. */
  datatype Run = Run(remote: Remote, raised: bool)

  function Parent(p: Path): Path
    requires p != []
  {
    p[..|p| - 1]
  }

  /** Where the server takes a path argument: from the root when it starts with '/', else from `cwd`. */
  function Resolve(cwd: Path, arg: string): Path
  {
    if |arg| > 0 && arg[0] == '/' then Segments(arg) else cwd + Segments(arg)
  }

  /** A well-formed tree: the root exists, every directory and file hangs under a directory, and the session stands in one. */
  predicate ValidRemote(r: Remote)
  {
    && [] in r.dirs
    && r.cwd in r.dirs
    && (forall d :: d in r.dirs && d != [] ==> Parent(d) in r.dirs)
    && (forall f :: f in r.files ==> f != [] && Parent(f) in r.dirs && f !in r.dirs)
  }

  predicate CanOpen(r: Remote, c: Credentials)
  {
    c == r.account
  }

  predicate CanCwd(r: Remote, dir: string)
  {
    r.connected && Resolve(r.cwd, dir) in r.dirs
  }

  predicate CanMkd(r: Remote, dir: string)
  {
    var t := Resolve(r.cwd, dir);
    r.connected && t != [] && t !in r.dirs && t !in r.files && Parent(t) in r.dirs
  }

  predicate CanStor(r: Remote, target: string)
  {
    var t := Resolve(r.cwd, target);
    r.connected && t != [] && t !in r.dirs && Parent(t) in r.dirs
  }

  /** Logging in starts a session in the root directory; wrong credentials leave no session. */
  function OpenStep(r: Remote, c: Credentials): (r': Remote)
    ensures r'.connected <==> c == r.account
    ensures r'.dirs == r.dirs && r'.files == r.files && r'.account == r.account
    ensures r'.connected ==> r'.cwd == []
    ensures r'.trace == r.trace + [Reply(Open(c), CanOpen(r, c))]
  {
    var ok := CanOpen(r, c);
    r.(connected := ok, cwd := if ok then [] else r.cwd, trace := r.trace + [Reply(Open(c), ok)])
  }

  /** Changing directory moves the session only into an existing directory, and changes nothing else. */
  function CwdStep(r: Remote, dir: string): (r': Remote)
    ensures r'.cwd == if CanCwd(r, dir) then Resolve(r.cwd, dir) else r.cwd
    ensures r'.cwd in r.dirs || r'.cwd == r.cwd
    ensures r'.dirs == r.dirs && r'.files == r.files && r'.connected == r.connected
    ensures r'.trace == r.trace + [Reply(Cwd(dir), CanCwd(r, dir))]
  {
    var ok := CanCwd(r, dir);
    r.(cwd := if ok then Resolve(r.cwd, dir) else r.cwd, trace := r.trace + [Reply(Cwd(dir), ok)])
  }

  /** Making a directory adds exactly that one directory, or nothing when refused. */
  function MkdStep(r: Remote, dir: string): (r': Remote)
    ensures r'.dirs == if CanMkd(r, dir) then r.dirs + {Resolve(r.cwd, dir)} else r.dirs
    ensures r'.files == r.files && r'.cwd == r.cwd && r'.connected == r.connected
    ensures r'.trace == r.trace + [Reply(Mkd(dir), CanMkd(r, dir))]
  {
    var ok := CanMkd(r, dir);
    r.(dirs := if ok then r.dirs + {Resolve(r.cwd, dir)} else r.dirs, trace := r.trace + [Reply(Mkd(dir), ok)])
  }

  /** Storing writes (or overwrites) exactly one file, or nothing when refused. */
  function StorStep(r: Remote, target: string, content: string): (r': Remote)
    ensures r'.files == if CanStor(r, target) then r.files[Resolve(r.cwd, target) := content] else r.files
    ensures r'.dirs == r.dirs && r'.cwd == r.cwd && r'.connected == r.connected
    ensures r'.trace == r.trace + [Reply(Stor(target), CanStor(r, target))]
  {
    var ok := CanStor(r, target);
    r.(files := if ok then r.files[Resolve(r.cwd, target) := content] else r.files,
       trace := r.trace + [Reply(Stor(target), ok)])
  }

  /** Leaving the `with` block ends the session. */
  function QuitStep(r: Remote): (r': Remote)
    ensures !r'.connected && r'.dirs == r.dirs && r'.files == r.files
  {
    r.(connected := false, trace := r.trace + [Reply(Quit, true)])
  }

  /** Every step keeps the tree well-formed. */
  lemma StepsKeepValid(r: Remote, c: Credentials, dir: string, content: string)
    requires ValidRemote(r)
    ensures ValidRemote(OpenStep(r, c))
    ensures ValidRemote(CwdStep(r, dir))
    ensures ValidRemote(MkdStep(r, dir))
    ensures ValidRemote(StorStep(r, dir, content))
    ensures ValidRemote(QuitStep(r))
  {
    var m := MkdStep(r, dir);
    if CanMkd(r, dir) {
      var t := Resolve(r.cwd, dir);
      forall d | d in m.dirs && d != [] ensures Parent(d) in m.dirs {
        if d != t {
          assert d in r.dirs;
        }
      }
    }
    var s := StorStep(r, dir, content);
    if CanStor(r, dir) {
      var t := Resolve(r.cwd, dir);
      forall f | f in s.files ensures f != [] && Parent(f) in s.dirs && f !in s.dirs {
        if f != t {
          assert f in r.files;
        }
      }
    }
  }

  /** A directory just made can be entered, and making it again is refused. */
  lemma MkdThenCwd(r: Remote, dir: string)
    requires CanMkd(r, dir)
    ensures CanCwd(MkdStep(r, dir), dir)
    ensures !CanMkd(MkdStep(r, dir), dir)
  {
  }

  /** The session's view of the server: one `ftplib.FTP` object at a time, against one server. */
  class Session {
    const account: Credentials
    var dirs: set<Path>
    var files: map<Path, string>
    var cwd: Path
    var connected: bool
    var trace: seq<Reply>

    function State(): Remote
      reads this
    {
      Remote(account, dirs, files, cwd, connected, trace)
    }

    constructor (r: Remote)
      ensures State() == r
    {
      account := r.account;
      dirs := r.dirs;
      files := r.files;
      cwd := r.cwd;
      connected := r.connected;
      trace := r.trace;
    }

    method Open(c: Credentials) returns (ok: bool)
      modifies this
      ensures ok == CanOpen(old(State()), c)
      ensures State() == OpenStep(old(State()), c)
    {
      ok := c == account;
      connected := ok;
      if ok {
        cwd := [];
      }
      trace := trace + [Reply(Command.Open(c), ok)];
    }

    method Cwd(dir: string) returns (ok: bool)
      modifies this
      ensures ok == CanCwd(old(State()), dir)
      ensures State() == CwdStep(old(State()), dir)
    {
      var target := Resolve(cwd, dir);
      ok := connected && target in dirs;
      if ok {
        cwd := target;
      }
      trace := trace + [Reply(Command.Cwd(dir), ok)];
    }

    method Mkd(dir: string) returns (ok: bool)
      modifies this
      ensures ok == CanMkd(old(State()), dir)
      ensures State() == MkdStep(old(State()), dir)
    {
      var target := Resolve(cwd, dir);
      ok := connected && target != [] && target !in dirs && target !in files && Parent(target) in dirs;
      if ok {
        dirs := dirs + {target};
      }
      trace := trace + [Reply(Command.Mkd(dir), ok)];
    }

    method Stor(target: string, content: string) returns (ok: bool)
      modifies this
      ensures ok == CanStor(old(State()), target)
      ensures State() == StorStep(old(State()), target, content)
    {
      var t := Resolve(cwd, target);
      ok := connected && t != [] && t !in dirs && Parent(t) in dirs;
      if ok {
        files := files[t := content];
      }
      trace := trace + [Reply(Command.Stor(target), ok)];
    }

    method Quit()
      modifies this
      ensures State() == QuitStep(old(State()))
    {
      connected := false;
      trace := trace + [Reply(Command.Quit, true)];
    }
  }
}
