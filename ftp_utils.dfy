/**
 * `api/ftp_utils.py`: the credential lookup, the names and paths of the log
 * files, the concatenating `ensure_ftp_path`, the two log uploads and
 * `upload_file_ftp`, as sessions against the `Ftp` model.
 */
module FtpUtils {
  import opened Wrappers
  import opened Text
  import opened Ftp

  // ---------------------------------------------------------------- credentials

  const HostVar: string := "FTP_HOST_1"
  const UserVar: string := "FTP_USERNAME_1"
  const PasswordVar: string := "FTP_PASSWORD_1"

  datatype CredentialError =
    | MissingVariable(name: string)    // the environment variable is unset or empty
    | UnsupportedId(id: Option<int>)   // only FTP id 1 is configured

  /** `os.getenv(name)` is truthy: set and not empty. */
  predicate Present(env: map<string, string>, name: string)
  {
    name in env && env[name] != ""
  }

  /**
   * `ftp_security`: id 1 reads the three variables and names the first one,
   * in the order host, user name, password, that is missing; any other id
   * (including none) is refused.
   */
  function FtpSecurity(id: Option<int>, env: map<string, string>): (r: Result<Credentials, CredentialError>)
    ensures id != Some(1) ==> r == Err(UnsupportedId(id))
    ensures r.Ok? <==> id == Some(1) && Present(env, HostVar) && Present(env, UserVar) && Present(env, PasswordVar)
    ensures r.Ok? ==> r.value == Credentials(env[HostVar], env[UserVar], env[PasswordVar])
    ensures id == Some(1) && !Present(env, HostVar) ==> r == Err(MissingVariable(HostVar))
    ensures id == Some(1) && Present(env, HostVar) && !Present(env, UserVar) ==> r == Err(MissingVariable(UserVar))
    ensures id == Some(1) && Present(env, HostVar) && Present(env, UserVar) && !Present(env, PasswordVar) ==>
              r == Err(MissingVariable(PasswordVar))
  {
    if id != Some(1) then Err(UnsupportedId(id))
    else if !Present(env, HostVar) then Err(MissingVariable(HostVar))
    else if !Present(env, UserVar) then Err(MissingVariable(UserVar))
    else if !Present(env, PasswordVar) then Err(MissingVariable(PasswordVar))
    else Ok(Credentials(env[HostVar], env[UserVar], env[PasswordVar]))
  }

  // ---------------------------------------------------------------- log file names

  /** A wall-clock reading in the Europe/Paris zone, as `datetime.now(tz)` gives it. */
  datatype DateTime = DateTime(year: int, month: int, day: int, hour: int, minute: int, second: int)

  predicate ValidDateTime(t: DateTime)
  {
    1000 <= t.year <= 9999 && 1 <= t.month <= 12 && 1 <= t.day <= 31 &&
    0 <= t.hour < 24 && 0 <= t.minute < 60 && 0 <= t.second < 60
  }

  function Pow10(n: nat): (p: nat)
    ensures p >= 1
  {
    if n == 0 then 1 else 10 * Pow10(n - 1)
  }

  predicate IsDigit(c: char)
  {
    '0' <= c <= '9'
  }

  /** `n` in exactly `width` decimal digits, zero-padded, as `%Y`, `%m`, `%d`, ... print it. */
  function Digits(n: nat, width: nat): (s: string)
    requires n < Pow10(width)
    ensures |s| == width
    ensures forall i :: 0 <= i < |s| ==> IsDigit(s[i])
  {
    if width == 0 then "" else Digits(n / 10, width - 1) + [('0' as int + n % 10) as char]
  }

  /** The value of a string of decimal digits. */
  function DigitsValue(s: string): (n: nat)
    requires forall i :: 0 <= i < |s| ==> IsDigit(s[i])
    ensures n < Pow10(|s|)
  {
    if s == [] then 0
    else
      assert IsDigit(s[|s| - 1]);
      DigitsValue(s[..|s| - 1]) * 10 + (s[|s| - 1] as int - '0' as int)
  }

  /** Reading the digits back gives the number. */
  lemma {:induction false} DigitsValueOfDigits(n: nat, width: nat)
    requires n < Pow10(width)
    ensures DigitsValue(Digits(n, width)) == n
  {
    if width > 0 {
      var s := Digits(n, width);
      assert s[..|s| - 1] == Digits(n / 10, width - 1);
      DigitsValueOfDigits(n / 10, width - 1);
    }
  }

  /** `strftime('%Y%m%d_%H%M%S')`. */
  function Stamp(t: DateTime): (s: string)
    requires ValidDateTime(t)
    ensures |s| == 15 && s[8] == '_'
    ensures forall i :: 0 <= i < 15 && i != 8 ==> IsDigit(s[i])
  {
    Digits(t.year, 4) + (Digits(t.month, 2) + (Digits(t.day, 2) + ("_" +
    (Digits(t.hour, 2) + (Digits(t.minute, 2) + Digits(t.second, 2))))))
  }

  /** Fifteen characters: eight digits, '_', six digits. */
  predicate StampShaped(s: string)
  {
    |s| == 15 && s[8] == '_' && forall i :: 0 <= i < 15 && i != 8 ==> IsDigit(s[i])
  }

  /** Reading a stamp back, the inverse of `Stamp`. */
  function ParseStamp(s: string): Option<DateTime>
  {
    if StampShaped(s) then
      Some(DateTime(DigitsValue(s[0..4]), DigitsValue(s[4..6]), DigitsValue(s[6..8]),
                    DigitsValue(s[9..11]), DigitsValue(s[11..13]), DigitsValue(s[13..15])))
    else None
  }

  /** A stamp determines the time it was made from. */
  lemma StampRoundTrip(t: DateTime)
    requires ValidDateTime(t)
    ensures ParseStamp(Stamp(t)) == Some(t)
  {
    var s := Stamp(t);
    assert StampShaped(s);
    StampFields(t);
    DigitsValueOfDigits(t.year, 4);
    DigitsValueOfDigits(t.month, 2);
    DigitsValueOfDigits(t.day, 2);
    DigitsValueOfDigits(t.hour, 2);
    DigitsValueOfDigits(t.minute, 2);
    DigitsValueOfDigits(t.second, 2);
  }

  /** Each field of a stamp sits at its fixed position. */
  lemma StampFields(t: DateTime)
    requires ValidDateTime(t)
    ensures var s := Stamp(t);
            && s[0..4] == Digits(t.year, 4) && s[4..6] == Digits(t.month, 2) && s[6..8] == Digits(t.day, 2)
            && s[9..11] == Digits(t.hour, 2) && s[11..13] == Digits(t.minute, 2) && s[13..15] == Digits(t.second, 2)
  {
    StampDateFields(t);
    StampTimeFields(t);
  }

  lemma StampDateFields(t: DateTime)
    requires ValidDateTime(t)
    ensures var s := Stamp(t);
            s[0..4] == Digits(t.year, 4) && s[4..6] == Digits(t.month, 2) && s[6..8] == Digits(t.day, 2)
  {
    var y, mo, d := Digits(t.year, 4), Digits(t.month, 2), Digits(t.day, 2);
    var h, mi, se := Digits(t.hour, 2), Digits(t.minute, 2), Digits(t.second, 2);
    var r3 := "_" + (h + (mi + se));
    var r2 := d + r3;
    var r1 := mo + r2;
    var s := y + r1;
    assert s == Stamp(t);
    assert s[0..4] == y by { SliceBefore(y, r1); }
    assert s[4..6] == mo by { SliceAfter(y, r1, 0, 2); SliceBefore(mo, r2); }
    assert s[6..8] == d by { SliceAfter(y, r1, 2, 4); SliceAfter(mo, r2, 0, 2); SliceBefore(d, r3); }
  }

  lemma StampTimeFields(t: DateTime)
    requires ValidDateTime(t)
    ensures var s := Stamp(t);
            s[9..11] == Digits(t.hour, 2) && s[11..13] == Digits(t.minute, 2) && s[13..15] == Digits(t.second, 2)
  {
    var y, mo, d := Digits(t.year, 4), Digits(t.month, 2), Digits(t.day, 2);
    var h, mi, se := Digits(t.hour, 2), Digits(t.minute, 2), Digits(t.second, 2);
    var r5 := mi + se;
    var r4 := h + r5;
    var head := y + (mo + (d + "_"));
    var s := Stamp(t);
    assert |head| == 9;
    assert s == head + r4 by {
      assert y + (mo + (d + ("_" + r4))) == (y + (mo + (d + "_"))) + r4;
    }
    assert s[9..11] == h by { SliceAfter(head, r4, 0, 2); SliceBefore(h, r5); }
    assert s[11..13] == mi by { SliceAfter(head, r4, 2, 4); SliceAfter(h, r5, 0, 2); SliceBefore(mi, se); }
    assert s[13..15] == se by {
      SliceAfter(head, r4, 4, 6);
      SliceAfter(h, r5, 2, 4);
      SliceAfter(mi, se, 0, 2);
      assert se[0..2] == se;
    }
  }

  /** Every member of a prefix is a member of the whole. */
  lemma PrefixMembers<T>(s: seq<T>, n: nat)
    requires n <= |s|
    ensures forall x :: x in s[..n] ==> x in s
  {
    forall x | x in s[..n] ensures x in s {
      var i :| 0 <= i < n && s[..n][i] == x;
      assert s[i] == x;
    }
  }

  /** A slice of the tail part of `x + r`, shifted by the head's length. */
  lemma SliceAfter<T>(x: seq<T>, r: seq<T>, i: nat, j: nat)
    requires i <= j <= |r|
    ensures (x + r)[|x| + i..|x| + j] == r[i..j]
  {
  }

  /** The head part of `x + r`. */
  lemma SliceBefore<T>(x: seq<T>, r: seq<T>)
    ensures (x + r)[0..|x|] == x
  {
  }

  const ErrorLogPrefix: string := "error_log_"
  const RequestLogPrefix: string := "request_log_"
  const LogSuffix: string := ".txt"

  /** The file name `log_to_ftp` gives an error log. */
  function ErrorLogName(t: DateTime): string
    requires ValidDateTime(t)
  {
    ErrorLogPrefix + Stamp(t) + LogSuffix
  }

  /** The file name `log_request_to_ftp` gives a request log. */
  function RequestLogName(t: DateTime): string
    requires ValidDateTime(t)
  {
    RequestLogPrefix + Stamp(t) + LogSuffix
  }

  /** A stamp holds only digits and its one underscore. */
  lemma StampChars(t: DateTime)
    requires ValidDateTime(t)
    ensures forall c :: c in Stamp(t) ==> IsDigit(c) || c == '_'
  {
    var s := Stamp(t);
    forall c | c in s ensures IsDigit(c) || c == '_' {
      var i :| 0 <= i < |s| && s[i] == c;
    }
  }

  /** Log names are plain file names: no separator of either kind. */
  lemma LogNamesArePlain(t: DateTime)
    requires ValidDateTime(t)
    ensures '/' !in ErrorLogName(t) && '\\' !in ErrorLogName(t) && ErrorLogName(t) != ""
    ensures '/' !in RequestLogName(t) && '\\' !in RequestLogName(t) && RequestLogName(t) != ""
  {
    StampChars(t);
    assert '/' !in ErrorLogPrefix && '\\' !in ErrorLogPrefix;
    assert '/' !in RequestLogPrefix && '\\' !in RequestLogPrefix;
    assert '/' !in LogSuffix && '\\' !in LogSuffix;
  }

  /** Error and request logs never share a name, and two different seconds never share one. */
  lemma LogNamesDistinct(t: DateTime, u: DateTime)
    requires ValidDateTime(t) && ValidDateTime(u)
    ensures ErrorLogName(t) != RequestLogName(u)
    ensures ErrorLogName(t) == ErrorLogName(u) ==> t == u
    ensures RequestLogName(t) == RequestLogName(u) ==> t == u
  {
    assert ErrorLogName(t)[0] != RequestLogName(u)[0];
    if ErrorLogName(t) == ErrorLogName(u) {
      assert Stamp(t) == ErrorLogName(t)[10..25];
      assert Stamp(u) == ErrorLogName(u)[10..25];
      StampRoundTrip(t);
      StampRoundTrip(u);
    }
    if RequestLogName(t) == RequestLogName(u) {
      assert Stamp(t) == RequestLogName(t)[12..27];
      assert Stamp(u) == RequestLogName(u)[12..27];
      StampRoundTrip(t);
      StampRoundTrip(u);
    }
  }

  /** `os.path.join(folder, name).replace('\\', '/')`. */
  function LogFilePath(folder: string, name: string): string
  {
    ReplaceChar(PathJoin(folder, name), '\\', '/')
  }

  /** For a folder without backslashes the log path is the folder's segments followed by the name. */
  lemma LogFilePathSegments(folder: string, name: string)
    requires '\\' !in folder && '\\' !in name && '/' !in name && name != ""
    ensures Segments(LogFilePath(folder, name)) == Segments(folder) + [name]
    ensures |LogFilePath(folder, name)| > 0 && (LogFilePath(folder, name)[0] == '/' <==> |folder| > 0 && folder[0] == '/')
  {
    PathJoinChars(folder, name);
    ReplaceAbsentChar(PathJoin(folder, name), '\\', '/');
    SegmentsPathJoin(folder, name);
    SegmentsOfPlainName(name);
  }
  // ---------------------------------------------------------------- ensure_ftp_path

  /** The pieces `ensure_ftp_path` walks: every leading '/' stripped, then split on '/'. */
  function PathPieces(path: string): seq<string>
  {
    Split(LStrip(path, '/'), "/")
  }

  /** The non-empty pieces are the path's segments. */
  lemma PathPiecesSegments(path: string)
    ensures NonEmpty(PathPieces(path)) == Segments(path)
  {
    SegmentsIgnoreLeadingSlashes(path);
  }

  /**
   * Enter `name`, else make it and enter it. A refused `mkd` propagates out
   * of the function, and so does a refused second `cwd`.
   */
  function EnterOrMake(r: Remote, name: string): Run
  {
    if CanCwd(r, name) then Run(CwdStep(r, name), false)
    else
      var r1 := CwdStep(r, name);
      if !CanMkd(r1, name) then Run(MkdStep(r1, name), true)
      else
        var r2 := MkdStep(r1, name);
        Run(CwdStep(r2, name), !CanCwd(r2, name))
  }

  /** The loop state of the source's `ensure_ftp_path`: the session so far and `current_path`. */
  datatype ConcatState = ConcatState(run: Run, current: String)

  type String = string

  /** One iteration as written: the name tried is the concatenation of every segment so far, with no separator. */
  function ConcatStep(st: ConcatState, directory: string): ConcatState
  {
    if st.run.raised || directory == "" then st
    else
      var current := st.current + directory;
      ConcatState(EnterOrMake(st.run.remote, current), current)
  }

  function ConcatWalk(st: ConcatState, pieces: seq<string>): ConcatState
    decreases |pieces|
  {
    if pieces == [] then st else ConcatStep(ConcatWalk(st, pieces[..|pieces| - 1]), pieces[|pieces| - 1])
  }

  /** `ensure_ftp_path(ftp, path)` of `api/ftp_utils.py`, as written. */
  function EnsureConcat(r: Remote, path: string): Run
  {
    ConcatWalk(ConcatState(Run(r, false), ""), PathPieces(path)).run
  }

  lemma ConcatNext(st: ConcatState, pieces: seq<string>, i: nat)
    requires i < |pieces|
    ensures ConcatWalk(st, pieces[..i + 1]) == ConcatStep(ConcatWalk(st, pieces[..i]), pieces[i])
  {
    assert pieces[..i + 1][..i] == pieces[..i];
  }

  /** Once a step has raised, the remaining pieces are never walked. */
  lemma {:induction false} ConcatRaisedStays(st: ConcatState, pieces: seq<string>, k: nat)
    requires k <= |pieces| && ConcatWalk(st, pieces[..k]).run.raised
    ensures ConcatWalk(st, pieces) == ConcatWalk(st, pieces[..k])
    decreases |pieces|
  {
    if k < |pieces| {
      var n := |pieces| - 1;
      assert pieces[..n][..k] == pieces[..k];
      ConcatRaisedStays(st, pieces[..n], k);
    } else {
      assert pieces[..k] == pieces;
    }
  }

  /** The as-written walk on a session, raising out of the loop like the source. */
  method EnsureFtpPathConcat(ftp: Session, path: string) returns (raised: bool)
    modifies ftp
    ensures Run(ftp.State(), raised) == EnsureConcat(old(ftp.State()), path)
  {
    var pieces := PathPieces(path);
    ghost var start := ConcatState(Run(ftp.State(), false), "");
    var current := "";
    raised := false;
    for i := 0 to |pieces|
      invariant ConcatWalk(start, pieces[..i]) == ConcatState(Run(ftp.State(), false), current)
    {
      ConcatNext(start, pieces, i);
      raised, current := ConcatStepOn(ftp, current, pieces[i]);
      if raised {
        ConcatRaisedStays(start, pieces, i + 1);
        return;
      }
    }
    assert pieces[..|pieces|] == pieces;
  }

  /** One iteration of the as-written loop: skip an empty piece, else append it to the name and enter or make that. */
  method ConcatStepOn(ftp: Session, current: string, directory: string) returns (raised: bool, current': string)
    modifies ftp
    ensures ConcatState(Run(ftp.State(), raised), current')
              == ConcatStep(ConcatState(Run(old(ftp.State()), false), current), directory)
  {
    raised, current' := false, current;
    if directory != "" {
      current' := current + directory;
      raised := EnterOrMakeOn(ftp, current');
    }
  }

  /**
   * The body of both loops: `cwd`, and on failure `mkd` then `cwd`; a
   * refused `mkd` or `cwd` raises.
   */
  method EnterOrMakeOn(ftp: Session, name: string) returns (raised: bool)
    modifies ftp
    ensures Run(ftp.State(), raised) == EnterOrMake(old(ftp.State()), name)
  {
    raised := false;
    var entered := ftp.Cwd(name);
    if !entered {
      var made := ftp.Mkd(name);
      if !made {
        raised := true;
        return;
      }
      entered := ftp.Cwd(name);
      raised := !entered;
    }
  }

  /** One iteration with `cwd(directory)`: one level deeper per segment. */
  function NestedStep(run: Run, directory: string): Run
  {
    if run.raised || directory == "" then run else EnterOrMake(run.remote, directory)
  }

  function NestedWalk(run: Run, pieces: seq<string>): Run
    decreases |pieces|
  {
    if pieces == [] then run else NestedStep(NestedWalk(run, pieces[..|pieces| - 1]), pieces[|pieces| - 1])
  }

  /** `ensure_ftp_path` as its documentation describes it: enter or make each segment in turn. */
  function EnsureNested(r: Remote, path: string): Run
  {
    NestedWalk(Run(r, false), PathPieces(path))
  }

  lemma {:induction false} NestedRaisedStays(run: Run, pieces: seq<string>, k: nat)
    requires k <= |pieces| && NestedWalk(run, pieces[..k]).raised
    ensures NestedWalk(run, pieces) == NestedWalk(run, pieces[..k])
    decreases |pieces|
  {
    if k < |pieces| {
      var n := |pieces| - 1;
      assert pieces[..n][..k] == pieces[..k];
      NestedRaisedStays(run, pieces[..n], k);
    } else {
      assert pieces[..k] == pieces;
    }
  }

  /** The corrected walk on a session. */
  method EnsureFtpPath(ftp: Session, path: string) returns (raised: bool)
    modifies ftp
    ensures Run(ftp.State(), raised) == EnsureNested(old(ftp.State()), path)
  {
    var pieces := PathPieces(path);
    ghost var start := Run(ftp.State(), false);
    raised := false;
    for i := 0 to |pieces|
      invariant NestedWalk(start, pieces[..i]) == Run(ftp.State(), false)
    {
      assert pieces[..i + 1][..i] == pieces[..i];
      var directory := pieces[i];
      if directory != "" {
        raised := EnterOrMakeOn(ftp, directory);
        if raised {
          NestedRaisedStays(start, pieces, i + 1);
          return;
        }
      }
    }
    assert pieces[..|pieces|] == pieces;
  }

  /** Skipping empty pieces inside the walk is the same as walking the segments. */
  lemma {:induction false} NestedSkipsEmpty(run: Run, pieces: seq<string>)
    ensures NestedWalk(run, pieces) == NestedWalk(run, NonEmpty(pieces))
    decreases |pieces|
  {
    if pieces != [] {
      var n := |pieces| - 1;
      var init, x := pieces[..n], pieces[n];
      assert pieces == init + [x];
      assert [x][1..] == [];
      NonEmptyAppend(init, [x]);
      NestedSkipsEmpty(run, init);
      var ne := NonEmpty(init);
      assert NonEmpty(pieces) == ne + NonEmpty([x]);
      assert NestedWalk(run, pieces) == NestedStep(NestedWalk(run, init), x);
      if x != "" {
        assert NonEmpty([x]) == [x];
        assert (ne + [x])[..|ne|] == ne;
        assert NestedWalk(run, ne + [x]) == NestedStep(NestedWalk(run, ne), x);
      } else {
        assert NonEmpty([x]) == [];
        assert ne + [] == ne;
      }
    }
  }

  lemma {:induction false} ConcatSkipsEmpty(st: ConcatState, pieces: seq<string>)
    ensures ConcatWalk(st, pieces) == ConcatWalk(st, NonEmpty(pieces))
    decreases |pieces|
  {
    if pieces != [] {
      var n := |pieces| - 1;
      var init, x := pieces[..n], pieces[n];
      assert pieces == init + [x];
      assert [x][1..] == [];
      NonEmptyAppend(init, [x]);
      ConcatSkipsEmpty(st, init);
      var ne := NonEmpty(init);
      assert NonEmpty(pieces) == ne + NonEmpty([x]);
      assert ConcatWalk(st, pieces) == ConcatStep(ConcatWalk(st, init), x);
      if x != "" {
        assert NonEmpty([x]) == [x];
        assert (ne + [x])[..|ne|] == ne;
        assert ConcatWalk(st, ne + [x]) == ConcatStep(ConcatWalk(st, ne), x);
      } else {
        assert NonEmpty([x]) == [];
        assert ne + [] == ne;
      }
    }
  }

  /** No prefix of `target` longer than `from` names a file. */
  predicate NoFileOnPath(files: map<Path, string>, target: Path, from: nat)
  {
    forall k :: from < k <= |target| ==> target[..k] !in files
  }

  /** `e` stands `target` below a directory of `r`'s tree, which it extends only along the way there. */
  predicate Reached(r: Remote, e: Run, target: Path)
  {
    && !e.raised && e.remote.cwd == target
    && ValidRemote(e.remote) && e.remote.connected
    && e.remote.files == r.files && e.remote.account == r.account
    && r.dirs <= e.remote.dirs
    && (forall d :: d in e.remote.dirs && d !in r.dirs ==> |d| <= |target| && d == target[..|d|])
  }

  /** One step of the walk goes one level down, making the directory when it is missing. */
  lemma EnterOrMakeDescends(r: Remote, name: string)
    requires ValidRemote(r) && r.connected && name != "" && '/' !in name
    requires r.cwd + [name] !in r.files
    ensures Reached(r, EnterOrMake(r, name), r.cwd + [name])
  {
    SegmentsOfPlainName(name);
    var t := r.cwd + [name];
    assert Resolve(r.cwd, name) == t;
    if CanCwd(r, name) {
      StepsKeepValid(r, r.account, name, "");
      assert EnterOrMake(r, name) == Run(CwdStep(r, name), false);
    } else {
      MakeThenEnter(r, name, t);
    }
  }

  /** A missing directory under the current one is made, then entered, and it is the only new directory. */
  lemma MakeThenEnter(r: Remote, name: string, t: Path)
    requires ValidRemote(r) && r.connected && !CanCwd(r, name)
    requires t == r.cwd + [name] && Resolve(r.cwd, name) == t && t !in r.files
    ensures Reached(r, EnterOrMake(r, name), t)
  {
    assert Parent(t) == r.cwd;
    var r1 := CwdStep(r, name);
    assert r1.cwd == r.cwd && r1.dirs == r.dirs && r1.files == r.files;
    assert CanMkd(r1, name);
    var r2 := MkdStep(r1, name);
    assert r2.dirs == r.dirs + {t};
    MkdThenCwd(r1, name);
    StepsKeepValid(r, r.account, name, "");
    StepsKeepValid(r1, r.account, name, "");
    StepsKeepValid(r2, r.account, name, "");
    var e := EnterOrMake(r, name);
    assert e == Run(CwdStep(r2, name), false);
    OnlyAddedIsPrefix(r.dirs, t);
  }

  /** Adding one path to a set adds nothing but a prefix of that path. */
  lemma OnlyAddedIsPrefix<T>(s: set<seq<T>>, t: seq<T>)
    ensures forall d :: d in s + {t} && d !in s ==> |d| <= |t| && d == t[..|d|]
  {
    assert t[..|t|] == t;
  }

  /**
   * Walking plain segments from a directory of a well-formed tree always
   * arrives one level per segment below it, unless a file stands in the way;
   * it only adds directories along that path and never touches a file.
   */
  lemma {:induction false} NestedWalkReaches(r: Remote, segs: seq<string>)
    requires ValidRemote(r) && r.connected
    requires forall name :: name in segs ==> name != "" && '/' !in name
    requires NoFileOnPath(r.files, r.cwd + segs, |r.cwd|)
    ensures Reached(r, NestedWalk(Run(r, false), segs), r.cwd + segs)
    decreases |segs|
  {
    if segs == [] {
      assert r.cwd + segs == r.cwd;
    } else {
      var n := |segs| - 1;
      var init, x := segs[..n], segs[n];
      assert x in segs;
      PrefixMembers(segs, n);
      forall k | |r.cwd| < k <= |r.cwd + init| ensures (r.cwd + init)[..k] !in r.files {
        assert (r.cwd + init)[..k] == (r.cwd + segs)[..k];
      }
      NestedWalkReaches(r, init);
      var e1 := NestedWalk(Run(r, false), init);
      var t := r.cwd + segs;
      assert e1.remote.cwd + [x] == t;
      assert t[..|t|] == t;
      EnterOrMakeDescends(e1.remote, x);
      forall d | d in e1.remote.dirs && d !in r.dirs ensures d == t[..|d|] {
        assert (r.cwd + init)[..|d|] == t[..|d|];
      }
    }
  }

  /** The corrected `ensure_ftp_path` arrives at the current directory followed by the path's segments. */
  lemma EnsureNestedReaches(r: Remote, path: string)
    requires ValidRemote(r) && r.connected
    requires NoFileOnPath(r.files, r.cwd + Segments(path), |r.cwd|)
    ensures Reached(r, EnsureNested(r, path), r.cwd + Segments(path))
  {
    NestedSkipsEmpty(Run(r, false), PathPieces(path));
    PathPiecesSegments(path);
    SegmentsArePlain(path);
    NestedWalkReaches(r, Segments(path));
  }

  /** Entering a missing directory whose parent is the current one makes it and enters it. */
  lemma EnterOrMakeFresh(r: Remote, name: string)
    requires r.connected && '/' !in name && name != ""
    requires r.cwd + [name] !in r.dirs && r.cwd + [name] !in r.files && r.cwd in r.dirs
    ensures var e := EnterOrMake(r, name);
            && !e.raised && e.remote.cwd == r.cwd + [name] && e.remote.dirs == r.dirs + {r.cwd + [name]}
            && e.remote.files == r.files
  {
    SegmentsOfPlainName(name);
    var t := r.cwd + [name];
    assert Resolve(r.cwd, name) == t;
    assert Parent(t) == r.cwd;
  }

  lemma PiecesOfTwoNames(a: string, b: string)
    requires a != "" && b != "" && '/' !in a && '/' !in b
    ensures PathPieces(a + "/" + b) == [a, b]
    ensures Segments(a + "/" + b) == [a, b]
  {
    var p := a + "/" + b;
    assert p[0] == a[0];
    assert LStrip(p, '/') == p;
    SplitAround(a, b, '/');
    FindNoChar(a, '/');
    FindNoChar(b, '/');
    assert Split(a, "/") == [a];
    assert Split(b, "/") == [b];
    SegmentsAround(a, b);
    SegmentsOfPlainName(a);
    SegmentsOfPlainName(b);
  }

  /** The as-written loop over two plain names from the root of an empty tree. */
  lemma ConcatWalkTwoNames(account: Credentials, a: string, b: string)
    requires a != "" && b != "" && '/' !in a && '/' !in b
    ensures var r := Remote(account, {[]}, map[], [], true, []);
            var e := ConcatWalk(ConcatState(Run(r, false), ""), [a, b]).run;
            && !e.raised && e.remote.cwd == [a, a + b] && e.remote.dirs == {[], [a], [a, a + b]}
  {
    var r := Remote(account, {[]}, map[], [], true, []);
    var st := ConcatState(Run(r, false), "");
    ConcatWalkTwo(st, a, b);
    assert "" + a == a;
    assert |r.cwd + [a]| == 1;
    EnterOrMakeFresh(r, a);
    var s1 := ConcatStep(st, a);
    var r1 := s1.run.remote;
    assert !s1.run.raised && s1.current == a;
    assert r1.cwd == [a] && r1.dirs == {[], [a]} && r1.files == map[];
    assert '/' !in a + b;
    assert r1.cwd + [a + b] == [a, a + b];
    assert [a, a + b] != [] && [a, a + b] != [a];
    EnterOrMakeFresh(r1, a + b);
  }

  /** Walking a two-piece list is two steps. */
  lemma ConcatWalkTwo(st: ConcatState, a: string, b: string)
    ensures ConcatWalk(st, [a, b]) == ConcatStep(ConcatStep(st, a), b)
  {
    assert [a, b][..1] == [a];
    assert [a][..0] == [];
    assert ConcatWalk(st, [a]) == ConcatStep(st, a);
  }

  lemma NestedTwoNames(account: Credentials, a: string, b: string)
    requires a != "" && b != "" && '/' !in a && '/' !in b
    ensures EnsureNested(Remote(account, {[]}, map[], [], true, []), a + "/" + b).remote.cwd == [a, b]
  {
    var r := Remote(account, {[]}, map[], [], true, []);
    PiecesOfTwoNames(a, b);
    assert ValidRemote(r);
    EnsureNestedReaches(r, a + "/" + b);
  }

  /**
   * The as-written walk on "a/b" (two plain names) from the root of an empty
   * tree makes and enters "/a/ab" instead of "/a/b"; the corrected walk
   * enters "/a/b".
   */
  lemma ConcatNestsWrongly(account: Credentials, a: string, b: string)
    requires a != "" && b != "" && '/' !in a && '/' !in b
    ensures var r := Remote(account, {[]}, map[], [], true, []);
            var e := EnsureConcat(r, a + "/" + b);
            && !e.raised && e.remote.cwd == [a, a + b] && [a, b] !in e.remote.dirs
            && EnsureNested(r, a + "/" + b).remote.cwd == [a, b]
  {
    var r := Remote(account, {[]}, map[], [], true, []);
    PiecesOfTwoNames(a, b);
    ConcatWalkTwoNames(account, a, b);
    var e := ConcatWalk(ConcatState(Run(r, false), ""), [a, b]).run;
    assert EnsureConcat(r, a + "/" + b) == e;
    assert [a, b] != [a, a + b] by {
      assert [a, b][1] == b && [a, a + b][1] == a + b && |b| < |a + b|;
    }
    assert [a, b] != [a] && [a, b] != [];
    NotAmongThree([a, b], [], [a], [a, a + b]);
    NestedTwoNames(account, a, b);
  }

  lemma NotAmongThree<T>(x: T, p: T, q: T, r: T)
    requires x != p && x != q && x != r
    ensures x !in {p, q, r}
  {
  }

  /** On a folder with at most one segment, such as "/logs" or "/error_logs", the two walks agree. */
  lemma ConcatAgreesOnOneSegment(r: Remote, path: string)
    requires |Segments(path)| <= 1
    ensures EnsureConcat(r, path) == EnsureNested(r, path)
  {
    var st := ConcatState(Run(r, false), "");
    ConcatSkipsEmpty(st, PathPieces(path));
    NestedSkipsEmpty(Run(r, false), PathPieces(path));
    PathPiecesSegments(path);
    var segs := Segments(path);
    if |segs| == 1 {
      assert segs[..0] == [];
      assert "" + segs[0] == segs[0];
    }
  }
  // ---------------------------------------------------------------- log uploads

  /**
   * The session both log functions run: log in, go to the root, make sure of
   * the folder unless it is "/", store the log under `join(folder, name)`,
   * leave. Every failure is caught and printed, so nothing is raised; the
   * session is left after a failure as after a success.
   */
  function UploadLog(r: Remote, c: Credentials, folder: string, name: string, content: string): (r': Remote)
    ensures !r'.connected
    ensures !CanOpen(r, c) ==> r'.dirs == r.dirs && r'.files == r.files
  {
    var r1 := OpenStep(r, c);
    if !r1.connected then r1
    else if !CanCwd(r1, "/") then QuitStep(CwdStep(r1, "/"))
    else
      var r2 := CwdStep(r1, "/");
      var e := if folder != "/" then EnsureConcat(r2, folder) else Run(r2, false);
      if e.raised then QuitStep(e.remote)
      else QuitStep(StorStep(e.remote, LogFilePath(folder, name), content))
  }

  /** The text `log_request_to_ftp` writes: the request time and the parameters as Python prints them. */
  function RequestLogMessage(isoNow: string, paramsText: string): string
  {
    "Request received at " + isoNow + " with parameters: " + paramsText + "\n"
  }

  /** The session of both log functions, on a session object. */
  method UploadLogFile(ftp: Session, c: Credentials, folder: string, name: string, content: string)
    modifies ftp
    ensures ftp.State() == UploadLog(old(ftp.State()), c, folder, name, content)
  {
    var loggedIn := ftp.Open(c);
    if !loggedIn {
      return;
    }
    var atRoot := ftp.Cwd("/");
    if atRoot {
      var raised := false;
      if folder != "/" {
        raised := EnsureFtpPathConcat(ftp, folder);
      }
      if !raised {
        var stored := ftp.Stor(LogFilePath(folder, name), content);
      }
    }
    ftp.Quit();
  }

  /** `log_request_to_ftp`: the request parameters, under "request_log_<stamp>.txt" in `folder` ("/logs" by default). */
  method LogRequestToFtp(ftp: Session, paramsText: string, c: Credentials, folder: string, now: DateTime, isoNow: string)
    requires ValidDateTime(now)
    modifies ftp
    ensures ftp.State() == UploadLog(old(ftp.State()), c, folder, RequestLogName(now), RequestLogMessage(isoNow, paramsText))
  {
    UploadLogFile(ftp, c, folder, RequestLogName(now), RequestLogMessage(isoNow, paramsText));
  }

  /** `log_to_ftp`: the message, under "error_log_<stamp>.txt" in `folder` ("error_logs" by default). */
  method LogToFtp(ftp: Session, c: Credentials, message: string, folder: string, now: DateTime)
    requires ValidDateTime(now)
    modifies ftp
    ensures ftp.State() == UploadLog(old(ftp.State()), c, folder, ErrorLogName(now), message)
  {
    UploadLogFile(ftp, c, folder, ErrorLogName(now), message);
  }

  lemma RootSegments()
    ensures Segments("/") == []
  {
    SegmentsDropLeadingSlash("/");
    SegmentsOfPlainName("");
  }

  /** `cwd('/')`, when it is accepted, puts the session at the root. */
  lemma CwdRootIsRoot(r: Remote)
    requires CanCwd(r, "/")
    ensures CwdStep(r, "/").cwd == []
  {
    RootSegments();
  }

  /**
   * With the right credentials, a well-formed tree and nothing in the way, a
   * log for an absolute folder of at most one segment, such as "/logs", lands
   * at the folder's segments followed by the file name, and no other file
   * changes.
   */
  lemma AbsoluteLogLands(r: Remote, c: Credentials, folder: string, name: string, content: string)
    requires ValidRemote(r) && c == r.account
    requires |folder| > 0 && folder[0] == '/' && '\\' !in folder && |Segments(folder)| <= 1
    requires name != "" && '/' !in name && '\\' !in name
    requires NoFileOnPath(r.files, Segments(folder), 0)
    requires Segments(folder) + [name] !in r.dirs
    ensures var r' := UploadLog(r, c, folder, name, content);
            && r'.files == r.files[Segments(folder) + [name] := content]
            && ValidRemote(r') && r'.account == r.account && r.dirs <= r'.dirs
            && (forall d :: d in r'.dirs && d !in r.dirs ==> |d| <= |Segments(folder)| && d == Segments(folder)[..|d|])
  {
    RootSession(r, c);
    var r2 := CwdStep(OpenStep(r, c), "/");
    ConcatAgreesOnOneSegment(r2, folder);
    var e := if folder != "/" then EnsureNested(r2, folder) else Run(r2, false);
    AbsoluteFolderReached(r2, folder);
    var t := Segments(folder) + [name];
    AbsoluteLogStores(r2, e, folder, name, content);
    StepsKeepValid(e.remote, c, LogFilePath(folder, name), content);
    StepsKeepValid(StorStep(e.remote, LogFilePath(folder, name), content), c, "/", content);
  }

  /**
   * At any depth, a log for an absolute folder is stored at the folder's
   * segments followed by the file name, or nowhere: its path is absolute, so
   * it does not depend on where the walk left the session.
   */
  lemma AbsoluteLogLandsOrIsLost(r: Remote, c: Credentials, folder: string, name: string, content: string)
    requires |folder| > 0 && folder[0] == '/' && '\\' !in folder
    requires name != "" && '/' !in name && '\\' !in name
    ensures var r' := UploadLog(r, c, folder, name, content);
            r'.files == r.files || r'.files == r.files[Segments(folder) + [name] := content]
  {
    var r1 := OpenStep(r, c);
    if r1.connected && CanCwd(r1, "/") {
      var r2 := CwdStep(r1, "/");
      ConcatWalkKeepsFiles(ConcatState(Run(r2, false), ""), PathPieces(folder));
      LogFilePathSegments(folder, name);
    }
  }

  /** With the right credentials on a well-formed tree, the session logs in and reaches the root. */
  lemma RootSession(r: Remote, c: Credentials)
    requires ValidRemote(r) && c == r.account
    ensures var r1 := OpenStep(r, c);
            var r2 := CwdStep(r1, "/");
            && r1.connected && CanCwd(r1, "/")
            && r2.connected && r2.cwd == [] && ValidRemote(r2)
            && r2.files == r.files && r2.dirs == r.dirs && r2.account == r.account
  {
    RootSegments();
    var r1 := OpenStep(r, c);
    StepsKeepValid(r, c, "/", "");
    StepsKeepValid(r1, c, "/", "");
  }

  /** From the root, the corrected walk reaches an absolute folder at its segments; "/" is not walked at all. */
  lemma AbsoluteFolderReached(r2: Remote, folder: string)
    requires ValidRemote(r2) && r2.connected && r2.cwd == []
    requires NoFileOnPath(r2.files, Segments(folder), 0)
    ensures Reached(r2, if folder != "/" then EnsureNested(r2, folder) else Run(r2, false), Segments(folder))
  {
    if folder != "/" {
      assert r2.cwd + Segments(folder) == Segments(folder);
      EnsureNestedReaches(r2, folder);
    } else {
      RootSegments();
    }
  }

  /** Standing in an absolute folder, the log path stores the file right there. */
  lemma AbsoluteLogStores(r: Remote, e: Run, folder: string, name: string, content: string)
    requires |folder| > 0 && folder[0] == '/' && '\\' !in folder
    requires name != "" && '/' !in name && '\\' !in name
    requires Reached(r, e, Segments(folder)) && Segments(folder) + [name] !in r.dirs
    ensures StorStep(e.remote, LogFilePath(folder, name), content).files == r.files[Segments(folder) + [name] := content]
  {
    LogFilePathSegments(folder, name);
    var t := Segments(folder) + [name];
    assert Resolve(e.remote.cwd, LogFilePath(folder, name)) == t;
    assert Parent(t) == Segments(folder);
    assert t !in e.remote.dirs;
  }

  /** Walking never changes a file. */
  lemma {:induction false} NestedWalkKeepsFiles(run: Run, pieces: seq<string>)
    ensures NestedWalk(run, pieces).remote.files == run.remote.files
    decreases |pieces|
  {
    if pieces != [] {
      NestedWalkKeepsFiles(run, pieces[..|pieces| - 1]);
    }
  }

  /** Neither is the as-written walk. */
  lemma {:induction false} ConcatWalkKeepsFiles(st: ConcatState, pieces: seq<string>)
    ensures ConcatWalk(st, pieces).run.remote.files == st.run.remote.files
    decreases |pieces|
  {
    if pieces != [] {
      ConcatWalkKeepsFiles(st, pieces[..|pieces| - 1]);
    }
  }

  /** A plain folder name is walked in one step: enter it, else make it and enter it. */
  lemma EnsureNestedPlain(r: Remote, folder: string)
    requires folder != "" && '/' !in folder
    ensures EnsureNested(r, folder) == EnterOrMake(r, folder)
  {
    assert folder[0] != '/';
    assert LStrip(folder, '/') == folder;
    FindNoChar(folder, '/');
    assert PathPieces(folder) == [folder];
    assert [folder][..0] == [];
    assert NestedWalk(Run(r, false), [folder]) == NestedStep(NestedWalk(Run(r, false), [folder][..0]), folder);
  }

  /** Entering or making a plain folder from the root changes no file, and on success stands in that folder. */
  lemma EnterOrMakeKeepsFiles(r: Remote, folder: string)
    requires r.cwd == [] && folder != "" && '/' !in folder
    ensures EnterOrMake(r, folder).remote.files == r.files
    ensures !EnterOrMake(r, folder).raised ==> EnterOrMake(r, folder).remote.cwd == [folder]
  {
    SegmentsOfPlainName(folder);
    assert Resolve(r.cwd, folder) == [folder];
  }

  /** Once logged in at the root, a log for a plain folder name enters or makes that folder and stores from there. */
  lemma UploadLogPlain(r: Remote, c: Credentials, folder: string, name: string, content: string)
    requires folder != "" && '/' !in folder
    requires OpenStep(r, c).connected && CanCwd(OpenStep(r, c), "/")
    ensures var r2 := CwdStep(OpenStep(r, c), "/");
            var e := EnterOrMake(r2, folder);
            && r2.cwd == []
            && UploadLog(r, c, folder, name, content)
               == if e.raised then QuitStep(e.remote) else QuitStep(StorStep(e.remote, LogFilePath(folder, name), content))
  {
    RootSegments();
    var r2 := CwdStep(OpenStep(r, c), "/");
    assert folder != "/";
    SegmentsOfPlainName(folder);
    ConcatAgreesOnOneSegment(r2, folder);
    EnsureNestedPlain(r2, folder);
  }

  /** From inside the folder, the relative log path names the folder's namesake inside it. */
  lemma PlainLogTarget(cwd: seq<string>, folder: string, name: string)
    requires folder != "" && '/' !in folder && '\\' !in folder
    requires name != "" && '/' !in name && '\\' !in name
    ensures Resolve(cwd, LogFilePath(folder, name)) == cwd + [folder, name]
  {
    LogFilePathSegments(folder, name);
    SegmentsOfPlainName(folder);
  }

  /**
   * `log_to_ftp`'s default folder "error_logs" is relative: the session is in
   * "/error_logs" when the name "error_logs/<file>" is resolved, so a log for
   * a relative one-segment folder can only land in that folder's namesake
   * inside it, and nowhere when that directory is missing.
   */
  lemma RelativeLogFolderNests(r: Remote, c: Credentials, folder: string, name: string, content: string)
    requires folder != "" && '/' !in folder && '\\' !in folder
    requires name != "" && '/' !in name && '\\' !in name
    ensures var r' := UploadLog(r, c, folder, name, content);
            r'.files == r.files || r'.files == r.files[[folder, folder, name] := content]
  {
    var r1 := OpenStep(r, c);
    if r1.connected && CanCwd(r1, "/") {
      var r2 := CwdStep(r1, "/");
      UploadLogPlain(r, c, folder, name, content);
      var e := EnterOrMake(r2, folder);
      EnterOrMakeKeepsFiles(r2, folder);
      assert r2.files == r.files;
      if !e.raised {
        var target := LogFilePath(folder, name);
        PlainLogTarget(e.remote.cwd, folder, name);
        var stored := StorStep(e.remote, target, content);
        assert e.remote.cwd == [folder];
        assert Resolve(e.remote.cwd, target) == [folder, folder, name];
        assert e.remote.files == r.files;
        if CanStor(e.remote, target) {
          assert stored.files == r.files[[folder, folder, name] := content];
        } else {
          assert stored.files == r.files;
        }
      }
    }
  }

  /**
   * With the right credentials on a well-formed tree, a log for a relative
   * one-segment folder lands in the folder's namesake inside that folder,
   * whenever that directory exists.
   */
  lemma RelativeLogLands(r: Remote, c: Credentials, folder: string, name: string, content: string)
    requires ValidRemote(r) && c == r.account
    requires folder != "" && '/' !in folder && '\\' !in folder
    requires name != "" && '/' !in name && '\\' !in name
    requires [folder] !in r.files && [folder, folder] in r.dirs && [folder, folder, name] !in r.dirs
    ensures UploadLog(r, c, folder, name, content).files == r.files[[folder, folder, name] := content]
  {
    RootSegments();
    StepsKeepValid(r, c, "/", content);
    var r1 := OpenStep(r, c);
    assert CanCwd(r1, "/");
    var r2 := CwdStep(r1, "/");
    StepsKeepValid(r1, c, "/", content);
    assert r2.cwd == [] && r2.files == r.files && r2.dirs == r.dirs;
    UploadLogPlain(r, c, folder, name, content);
    assert r2.cwd + [folder] == [folder];
    EnterOrMakeDescends(r2, folder);
    PlainLogStores(r2, EnterOrMake(r2, folder), folder, name, content);
  }

  /** Standing in the folder, with its namesake inside it, the relative log path stores into that namesake. */
  lemma PlainLogStores(r: Remote, e: Run, folder: string, name: string, content: string)
    requires folder != "" && '/' !in folder && '\\' !in folder
    requires name != "" && '/' !in name && '\\' !in name
    requires Reached(r, e, [folder]) && [folder, folder] in r.dirs && [folder, folder, name] !in r.dirs
    ensures StorStep(e.remote, LogFilePath(folder, name), content).files == r.files[[folder, folder, name] := content]
  {
    var target := LogFilePath(folder, name);
    PlainLogTarget(e.remote.cwd, folder, name);
    assert Resolve(e.remote.cwd, target) == [folder, folder, name];
    assert Parent([folder, folder, name]) == [folder, folder];
    assert CanStor(e.remote, target);
  }

  // ---------------------------------------------------------------- upload_file_ftp

  /** The name `upload_file_ftp` stores under, relative to the root: `join(*split(path)).lstrip('/')`. */
  function UploadTarget(outputPath: string): (target: string)
    ensures target == [] || target[0] != '/'
  {
    var (dir, filename) := PathSplit(outputPath);
    LStrip(PathJoin(dir, filename), '/')
  }

  /** The upload target names the same segments as the requested path. */
  lemma UploadTargetSegments(outputPath: string)
    ensures Segments(UploadTarget(outputPath)) == Segments(outputPath)
  {
    var (dir, filename) := PathSplit(outputPath);
    PathSplitSegments(outputPath);
    SlashOccurs(filename);
    SegmentsPathJoin(dir, filename);
    SegmentsIgnoreLeadingSlashes(PathJoin(dir, filename));
  }

  /**
   * `upload_file_ftp`: log in, make sure of the directory part, go back to the
   * root and store there under the target. Unlike the log functions every
   * failure propagates.
   */
  function UploadFile(r: Remote, c: Credentials, outputPath: string, content: string): (run: Run)
    ensures run.raised <== !CanOpen(r, c)
    ensures !run.remote.connected
  {
    var r1 := OpenStep(r, c);
    if !r1.connected then Run(r1, true)
    else
      var e := EnsureConcat(r1, PathSplit(outputPath).0);
      if e.raised then Run(QuitStep(e.remote), true)
      else if !CanCwd(e.remote, "/") then Run(QuitStep(CwdStep(e.remote, "/")), true)
      else
        var r2 := CwdStep(e.remote, "/");
        var target := UploadTarget(outputPath);
        Run(QuitStep(StorStep(r2, target, content)), !CanStor(r2, target))
  }

  method UploadFileFtp(ftp: Session, c: Credentials, outputPath: string, content: string) returns (raised: bool)
    modifies ftp
    ensures Run(ftp.State(), raised) == UploadFile(old(ftp.State()), c, outputPath, content)
  {
    var loggedIn := ftp.Open(c);
    if !loggedIn {
      return true;
    }
    var (dir, filename) := PathSplit(outputPath);
    raised := EnsureFtpPathConcat(ftp, dir);
    if !raised {
      var atRoot := ftp.Cwd("/");
      if !atRoot {
        raised := true;
      } else {
        var stored := ftp.Stor(UploadTarget(outputPath), content);
        raised := !stored;
      }
    }
    ftp.Quit();
  }

  /**
   * After logging in and making sure of a directory part of at most one
   * segment, the session stands in that directory.
   */
  lemma UploadReachesDirectory(r: Remote, c: Credentials, outputPath: string)
    requires ValidRemote(r) && c == r.account
    requires |Segments(PathSplit(outputPath).0)| <= 1
    requires NoFileOnPath(r.files, Segments(PathSplit(outputPath).0), 0)
    ensures var dir := PathSplit(outputPath).0;
            Reached(OpenStep(r, c), EnsureConcat(OpenStep(r, c), dir), Segments(dir))
  {
    var dir := PathSplit(outputPath).0;
    var r1 := OpenStep(r, c);
    StepsKeepValid(r, c, "/", "");
    assert [] + Segments(dir) == Segments(dir);
    ConcatAgreesOnOneSegment(r1, dir);
    EnsureNestedReaches(r1, dir);
  }

  /**
   * With the right credentials, a well-formed tree and nothing in the way,
   * a file whose directory part has at most one segment lands exactly at the
   * requested path, and no other file changes.
   */
  lemma UploadFileLands(r: Remote, c: Credentials, outputPath: string, content: string)
    requires ValidRemote(r) && c == r.account
    requires PathSplit(outputPath).1 != "" && |Segments(PathSplit(outputPath).0)| <= 1
    requires NoFileOnPath(r.files, Segments(PathSplit(outputPath).0), 0)
    requires Segments(outputPath) !in r.dirs
    ensures var run := UploadFile(r, c, outputPath, content);
            !run.raised && run.remote.files == r.files[Segments(outputPath) := content]
  {
    var r1 := OpenStep(r, c);
    UploadReachesDirectory(r, c, outputPath);
    UploadStoresAtTarget(r1, EnsureConcat(r1, PathSplit(outputPath).0), outputPath, content);
  }

  /**
   * At any depth, the upload either raises and changes no file, or stores the
   * requested path and nothing else: the target is resolved from the root
   * whatever the walk did.
   */
  lemma UploadFileLandsOrRaises(r: Remote, c: Credentials, outputPath: string, content: string)
    requires PathSplit(outputPath).1 != ""
    ensures var run := UploadFile(r, c, outputPath, content);
            run.remote.files == if run.raised then r.files else r.files[Segments(outputPath) := content]
  {
    var run := UploadFile(r, c, outputPath, content);
    var r1 := OpenStep(r, c);
    if r1.connected {
      var e := EnsureConcat(r1, PathSplit(outputPath).0);
      assert e.remote.files == r.files by {
        ConcatWalkKeepsFiles(ConcatState(Run(r1, false), ""), PathPieces(PathSplit(outputPath).0));
      }
      if !e.raised && CanCwd(e.remote, "/") {
        var r2 := CwdStep(e.remote, "/");
        var target := UploadTarget(outputPath);
        assert run == Run(QuitStep(StorStep(r2, target, content)), !CanStor(r2, target));
        CwdRootIsRoot(e.remote);
        assert Resolve(r2.cwd, target) == Segments(outputPath) by {
          UploadTargetResolves(outputPath);
        }
      } else {
        assert run.raised && run.remote.files == e.remote.files;
      }
    } else {
      assert run == Run(r1, true);
    }
  }

  /** The target, resolved from the root, is the directory part's segments followed by the file name. */
  lemma UploadTargetResolves(outputPath: string)
    requires PathSplit(outputPath).1 != ""
    ensures Resolve([], UploadTarget(outputPath)) == Segments(outputPath)
    ensures Segments(outputPath) == Segments(PathSplit(outputPath).0) + [PathSplit(outputPath).1]
  {
    var (dir, filename) := PathSplit(outputPath);
    PathSplitSegments(outputPath);
    SlashOccurs(filename);
    SegmentsOfPlainName(filename);
    UploadTargetSegments(outputPath);
  }

  /** From the directory part, going back to the root and storing under the target writes the requested path. */
  lemma UploadStoresAtTarget(r: Remote, e: Run, outputPath: string, content: string)
    requires PathSplit(outputPath).1 != ""
    requires Reached(r, e, Segments(PathSplit(outputPath).0))
    requires Segments(outputPath) !in r.dirs
    ensures CanCwd(e.remote, "/")
    ensures var r2 := CwdStep(e.remote, "/");
            && CanStor(r2, UploadTarget(outputPath))
            && StorStep(r2, UploadTarget(outputPath), content).files == r.files[Segments(outputPath) := content]
  {
    var dir := PathSplit(outputPath).0;
    RootSegments();
    assert CanCwd(e.remote, "/");
    var r2 := CwdStep(e.remote, "/");
    UploadTargetResolves(outputPath);
    var t := Segments(outputPath);
    assert r2.cwd == [];
    assert Resolve(r2.cwd, UploadTarget(outputPath)) == t;
    assert Parent(t) == Segments(dir);
    assert t !in e.remote.dirs;
  }
}
