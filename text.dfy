/**
 * The Python `str` operations the core relies on (`split`, `join`, `lstrip`,
 * `rstrip`, `replace`) and the two `os.path` helpers it calls (`join`,
 * `split`), over strings as sequences of characters.
 */
module Text {
  import opened Wrappers

  /** `sep` occurs in `s` starting at index `j`. */
  predicate OccursAt(s: string, sep: string, j: int)
  {
    0 <= j && j + |sep| <= |s| && s[j..j + |sep|] == sep
  }

  /** `sep in s`. */
  predicate Contains(s: string, sep: string)
  {
    exists j | 0 <= j <= |s| :: OccursAt(s, sep, j)
  }

  /** `s.find(sep)`: the leftmost occurrence of `sep`, if any. */
  function Find(s: string, sep: string): (k: Option<nat>)
    requires |sep| > 0
    ensures k.Some? ==> OccursAt(s, sep, k.value)
    ensures k.Some? ==> forall j :: 0 <= j < k.value ==> !OccursAt(s, sep, j)
    ensures k.None? ==> !Contains(s, sep)
    decreases |s|
  {
    if |s| < |sep| then None
    else if s[..|sep|] == sep then Some(0)
    else
      match Find(s[1..], sep)
      case None =>
        assert forall j :: OccursAt(s, sep, j) && j > 0 ==> OccursAt(s[1..], sep, j - 1);
        None
      case Some(k) =>
        assert forall j :: 0 < j <= k ==> (OccursAt(s, sep, j) ==> OccursAt(s[1..], sep, j - 1));
        Some(k + 1)
  }

  /** `s.split(sep)` for a non-empty separator. */
  function Split(s: string, sep: string): (parts: seq<string>)
    requires |sep| > 0
    ensures |parts| >= 1
    decreases |s|
  {
    match Find(s, sep)
    case None => [s]
    case Some(k) => [s[..k]] + Split(s[k + |sep|..], sep)
  }

  /** `sep.join(parts)`. */
  function Join(parts: seq<string>, sep: string): string
  {
    if parts == [] then ""
    else if |parts| == 1 then parts[0]
    else parts[0] + sep + Join(parts[1..], sep)
  }

  lemma JoinCons(x: string, parts: seq<string>, sep: string)
    requires |parts| >= 1
    ensures Join([x] + parts, sep) == x + sep + Join(parts, sep)
  {
    assert ([x] + parts)[1..] == parts;
  }

  /** Joining the pieces of a split with the same separator gives the text back. */
  lemma {:induction false} JoinSplit(s: string, sep: string)
    requires |sep| > 0
    ensures Join(Split(s, sep), sep) == s
    decreases |s|
  {
    var found := Find(s, sep);
    if found.Some? {
      var k := found.value;
      var rest := s[k + |sep|..];
      var tailParts := Split(rest, sep);
      JoinSplit(rest, sep);
      assert Split(s, sep) == [s[..k]] + tailParts;
      JoinCons(s[..k], tailParts, sep);
      assert s[k..k + |sep|] == sep;
      assert s == s[..k] + s[k..k + |sep|] + rest;
    }
  }

  /** No piece of a split contains the separator. */
  lemma {:induction false} SplitPiecesAvoidSeparator(s: string, sep: string)
    requires |sep| > 0
    ensures forall p :: p in Split(s, sep) ==> !Contains(p, sep)
    decreases |s|
  {
    match Find(s, sep)
    case None =>
    case Some(k) =>
      var head := s[..k];
      SplitPiecesAvoidSeparator(s[k + |sep|..], sep);
      if Contains(head, sep) {
        var j :| 0 <= j <= |head| && OccursAt(head, sep, j);
        assert head[j..j + |sep|] == s[j..j + |sep|];
        assert OccursAt(s, sep, j);
        assert false;
      }
  }

  /** A text that begins with the separator splits into an empty piece and the rest. */
  lemma SplitLeadingSeparator(s: string, sep: string)
    requires |sep| > 0 && |sep| <= |s| && s[..|sep|] == sep
    ensures Split(s, sep) == [""] + Split(s[|sep|..], sep)
  {
    assert Find(s, sep) == Some(0);
  }

  /** A text without the separator is its own single piece. */
  lemma SplitWithoutSeparator(s: string, sep: string)
    requires |sep| > 0 && !Contains(s, sep)
    ensures Split(s, sep) == [s]
  {
  }

  /** For a one-character separator an occurrence is just that character. */
  lemma OccursAtChar(s: string, c: char, j: int)
    ensures OccursAt(s, [c], j) <==> 0 <= j < |s| && s[j] == c
  {
    if 0 <= j < |s| {
      assert s[j..j + 1] == [s[j]];
    }
  }

  lemma FindChar(s: string, c: char, k: int)
    requires 0 <= k < |s| && s[k] == c
    requires forall j :: 0 <= j < k ==> s[j] != c
    ensures Find(s, [c]) == Some(k)
  {
    OccursAtChar(s, c, k);
    forall j | 0 <= j < k ensures !OccursAt(s, [c], j) {
      OccursAtChar(s, c, j);
    }
  }

  lemma FindNoChar(s: string, c: char)
    requires forall j :: 0 <= j < |s| ==> s[j] != c
    ensures Find(s, [c]) == None
  {
    var r := Find(s, [c]);
    if r.Some? {
      OccursAtChar(s, c, r.value);
    }
  }

  /** For a one-character separator, splitting distributes over a separator inserted between two texts. */
  lemma {:induction false} SplitAround(a: string, b: string, c: char)
    ensures Split(a + [c] + b, [c]) == Split(a, [c]) + Split(b, [c])
    decreases |a|
  {
    var sep := [c];
    var s := a + sep + b;
    var found := Find(a, sep);
    if found.None? {
      forall j | 0 <= j < |a| ensures a[j] != c {
        OccursAtChar(a, c, j);
      }
      FindChar(s, c, |a|);
      assert s[..|a|] == a && s[|a| + 1..] == b;
    } else {
      var k := found.value;
      OccursAtChar(a, c, k);
      forall j | 0 <= j < k ensures a[j] != c {
        OccursAtChar(a, c, j);
      }
      FindChar(s, c, k);
      var a' := a[k + 1..];
      assert s[k + 1..] == a' + sep + b;
      assert s[..k] == a[..k];
      SplitAround(a', b, c);
    }
  }

  /** The non-empty pieces, in order: the segments Python keeps with `if directory:`. */
  function NonEmpty(parts: seq<string>): (r: seq<string>)
    ensures forall p :: p in r ==> p != "" && p in parts
    ensures |r| <= |parts|
  {
    if parts == [] then []
    else if parts[0] == "" then NonEmpty(parts[1..])
    else [parts[0]] + NonEmpty(parts[1..])
  }

  lemma {:induction false} NonEmptyAppend(a: seq<string>, b: seq<string>)
    ensures NonEmpty(a + b) == NonEmpty(a) + NonEmpty(b)
  {
    if a == [] {
      assert a + b == b;
    } else {
      assert (a + b)[0] == a[0];
      assert (a + b)[1..] == a[1..] + b;
      NonEmptyAppend(a[1..], b);
    }
  }

  /** The directory names of a '/'-separated path, empty names dropped. */
  function Segments(path: string): seq<string>
  {
    NonEmpty(Split(path, "/"))
  }

  /** A '/'-free name is a single segment, or none if it is empty. */
  lemma SegmentsOfName(name: string)
    requires !Contains(name, "/")
    ensures Segments(name) == if name == "" then [] else [name]
  {
    SplitWithoutSeparator(name, "/");
  }

  /** A leading '/' does not change the segments. */
  lemma SegmentsDropLeadingSlash(path: string)
    requires |path| > 0 && path[0] == '/'
    ensures Segments(path) == Segments(path[1..])
  {
    SplitLeadingSeparator(path, "/");
  }

  /** `s.lstrip(c)`: drop every leading `c`. */
  function LStrip(s: string, c: char): (r: string)
    ensures |r| <= |s| && r == s[|s| - |r|..]
    ensures forall i :: 0 <= i < |s| - |r| ==> s[i] == c
    ensures r != [] ==> r[0] != c
  {
    if s != [] && s[0] == c then LStrip(s[1..], c) else s
  }

  /** `s.rstrip(c)`: drop every trailing `c`. */
  function RStrip(s: string, c: char): (r: string)
    ensures |r| <= |s| && r == s[..|r|]
    ensures forall i :: |r| <= i < |s| ==> s[i] == c
    ensures r != [] ==> r[|r| - 1] != c
  {
    if s != [] && s[|s| - 1] == c then RStrip(s[..|s| - 1], c) else s
  }

  /** Leading '/' characters never change the segments of a path. */
  lemma {:induction false} SegmentsIgnoreLeadingSlashes(path: string)
    ensures Segments(LStrip(path, '/')) == Segments(path)
    decreases |path|
  {
    if path != [] && path[0] == '/' {
      SegmentsDropLeadingSlash(path);
      SegmentsIgnoreLeadingSlashes(path[1..]);
    }
  }

  /** Trailing '/' characters never change the segments of a path. */
  lemma {:induction false} SegmentsIgnoreTrailingSlashes(path: string)
    ensures Segments(RStrip(path, '/')) == Segments(path)
    decreases |path|
  {
    if path != [] && path[|path| - 1] == '/' {
      var p := path[..|path| - 1];
      assert path == p + "/" + "";
      SplitAround(p, "", '/');
      NonEmptyAppend(Split(p, "/"), Split("", "/"));
      SegmentsIgnoreTrailingSlashes(p);
    }
  }

  /** `s.replace(a, b)` for single characters. */
  function ReplaceChar(s: string, a: char, b: char): (r: string)
    ensures |r| == |s|
    ensures forall i :: 0 <= i < |s| ==> r[i] == (if s[i] == a then b else s[i])
  {
    if s == [] then [] else [if s[0] == a then b else s[0]] + ReplaceChar(s[1..], a, b)
  }

  /** `posixpath.join(a, b)`. */
  function PathJoin(a: string, b: string): string
  {
    if |b| > 0 && b[0] == '/' then b
    else if a == "" || a[|a| - 1] == '/' then a + b
    else a + "/" + b
  }

  /** Index just after the last '/', or 0 when there is none. */
  function AfterLastSlash(s: string): (i: nat)
    ensures i <= |s|
    ensures i > 0 ==> s[i - 1] == '/'
    ensures forall j :: i <= j < |s| ==> s[j] != '/'
  {
    if s == [] then 0
    else if s[|s| - 1] == '/' then |s|
    else AfterLastSlash(s[..|s| - 1])
  }

  /** `posixpath.split(p)`: the directory part and the final name. */
  function PathSplit(p: string): (r: (string, string))
  {
    var i := AfterLastSlash(p);
    var head := p[..i];
    var allSlashes := forall j :: 0 <= j < |head| ==> head[j] == '/';
    (if head != "" && !allSlashes then RStrip(head, '/') else head, p[i..])
  }

  lemma SegmentsAround(h: string, tail: string)
    ensures Segments(h + "/" + tail) == Segments(h) + Segments(tail)
  {
    SplitAround(h, tail, '/');
    NonEmptyAppend(Split(h, "/"), Split(tail, "/"));
  }

  lemma PathSplitTail(p: string)
    ensures !Contains(p[AfterLastSlash(p)..], "/")
  {
    var i := AfterLastSlash(p);
    var tail := p[i..];
    if Contains(tail, "/") {
      var j :| 0 <= j <= |tail| && OccursAt(tail, "/", j);
      OccursAtChar(tail, '/', j);
    }
  }

  lemma PathSplitHead(p: string)
    ensures Segments(PathSplit(p).0) == Segments(p[..AfterLastSlash(p)])
  {
    SegmentsIgnoreTrailingSlashes(p[..AfterLastSlash(p)]);
  }

  /** Cutting a path just after one of its slashes splits its segments in two. */
  lemma SegmentsAtSlash(p: string, i: nat)
    requires 0 < i <= |p| && p[i - 1] == '/'
    ensures Segments(p) == Segments(p[..i]) + Segments(p[i..])
  {
    var h, tail := p[..i - 1], p[i..];
    assert p == h + "/" + tail;
    SegmentsAround(h, tail);
    assert p[..i] == h + "/" + "";
    SegmentsAround(h, "");
    SegmentsOfName("");
  }

  /** Splitting a path never loses or invents a segment: the head's segments followed by the name's are the path's. */
  lemma PathSplitSegments(p: string)
    ensures !Contains(PathSplit(p).1, "/")
    ensures Segments(p) == Segments(PathSplit(p).0) + Segments(PathSplit(p).1)
  {
    var i := AfterLastSlash(p);
    assert PathSplit(p).1 == p[i..];
    PathSplitTail(p);
    PathSplitHead(p);
    if i == 0 {
      assert p[..i] == "" && p[i..] == p;
      SegmentsOfName("");
    } else {
      SegmentsAtSlash(p, i);
    }
  }

  /** A name without '/' is one segment, or none when it is empty. */
  lemma SegmentsOfPlainName(name: string)
    requires '/' !in name
    ensures Segments(name) == if name == "" then [] else [name]
  {
    FindNoChar(name, '/');
    assert Split(name, "/") == [name];
  }

  /** `posixpath.join` with a relative second part puts its segments after the first part's. */
  lemma SegmentsPathJoin(a: string, b: string)
    requires !(|b| > 0 && b[0] == '/')
    ensures Segments(PathJoin(a, b)) == Segments(a) + Segments(b)
  {
    SegmentsOfPlainName("");
    if a == "" {
      assert PathJoin(a, b) == b;
    } else if a[|a| - 1] == '/' {
      var h := a[..|a| - 1];
      assert PathJoin(a, b) == h + "/" + b;
      assert a == h + "/" + "";
      SegmentsAround(h, b);
      SegmentsAround(h, "");
    } else {
      SegmentsAround(a, b);
    }
  }

  /** `posixpath.join` only uses characters of its parts and '/'. */
  lemma PathJoinChars(a: string, b: string)
    ensures forall c :: c in PathJoin(a, b) ==> c in a || c in b || c == '/'
  {
  }

  /** Replacing a character that does not occur changes nothing. */
  lemma ReplaceAbsentChar(s: string, a: char, b: char)
    requires a !in s
    ensures ReplaceChar(s, a, b) == s
  {
  }
  /** Every segment is a non-empty name without '/'. */
  lemma SegmentsArePlain(path: string)
    ensures forall name :: name in Segments(path) ==> name != "" && '/' !in name
  {
    SplitPiecesAvoidSeparator(path, "/");
    forall name | name in Segments(path) ensures '/' !in name {
      if '/' in name {
        var j :| 0 <= j < |name| && name[j] == '/';
        OccursAtChar(name, '/', j);
      }
    }
  }
  /** A '/' anywhere in a text is an occurrence of the separator "/". */
  lemma SlashOccurs(s: string)
    ensures '/' in s ==> Contains(s, "/")
  {
    if '/' in s {
      var j :| 0 <= j < |s| && s[j] == '/';
      OccursAtChar(s, '/', j);
    }
  }
}
