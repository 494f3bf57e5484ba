/**
 * POSIX path joining and normalisation, as Node's `path.posix.join` and
 * `path.posix.normalize` perform them: a path is cut into segments at every
 * '/', empty and "." segments are dropped, ".." removes the segment before it
 * (or is kept in front of a relative path, and dropped at the root of an
 * absolute one), and the leading and trailing separators are put back.
 */
module Paths {

  /** True when `seg` holds no separator. */
  predicate NoSlash(seg: string) {
    '/' !in seg
  }

  /** True when no two separators stand next to each other in `t`. */
  predicate NoDoubleSlash(t: string) {
    forall i :: 0 <= i < |t| - 1 && t[i] == '/' ==> t[i + 1] != '/'
  }

  /** The segments of `s` between separators, empty ones included. */
  function Split(s: string): (segs: seq<string>)
    ensures |segs| >= 1
  {
    if s == [] then [""]
    else
      var rest := Split(s[1..]);
      if s[0] == '/' then [""] + rest
      else [[s[0]] + rest[0]] + rest[1..]
  }

  /** The segments `r` written one after the other with a separator between each two. */
  function JoinSegs(r: seq<string>): string
  {
    if |r| == 0 then ""
    else if |r| == 1 then r[0]
    else r[0] + "/" + JoinSegs(r[1..])
  }

  /** One segment's effect on the stack of segments kept so far. */
  function Step(stack: seq<string>, seg: string, allowAboveRoot: bool): seq<string>
  {
    if seg == "" || seg == "." then stack
    else if seg == ".." then
      if |stack| > 0 && stack[|stack| - 1] != ".." then stack[..|stack| - 1]
      else if allowAboveRoot then stack + [".."]
      else stack
    else stack + [seg]
  }

  /** The segments `segs` applied, left to right, to `stack`. */
  function Resolve(stack: seq<string>, segs: seq<string>, allowAboveRoot: bool): seq<string>
    decreases |segs|
  {
    if segs == [] then stack
    else Resolve(Step(stack, segs[0], allowAboveRoot), segs[1..], allowAboveRoot)
  }

  /**
   * A stack of segments that normalisation can produce: every segment is a
   * real name or "..", the ".." segments all come first, and an absolute path
   * (which may not climb above the root) has none.
   */
  predicate Resolved(r: seq<string>, allowAboveRoot: bool)
  {
    (forall i :: 0 <= i < |r| ==> r[i] != "" && r[i] != "." && NoSlash(r[i])) &&
    (forall i, j :: 0 <= i < j < |r| && r[j] == ".." ==> r[i] == "..") &&
    (!allowAboveRoot ==> forall i :: 0 <= i < |r| ==> r[i] != "..")
  }

  /** `path.posix.normalize(s)`. */
  function Normalize(s: string): (t: string)
    ensures |t| > 0
  {
    if s == [] then "."
    else
      var isAbsolute := s[0] == '/';
      var trailingSeparator := s[|s| - 1] == '/';
      var body := JoinSegs(Resolve([], Split(s), !isAbsolute));
      if body == [] then
        (if isAbsolute then "/" else if trailingSeparator then "./" else ".")
      else
        (if isAbsolute then "/" else "") + body + (if trailingSeparator then "/" else "")
  }

  /** The non-empty arguments written one after the other with a separator between each two. */
  function JoinArgs(args: seq<string>): string
  {
    if args == [] then ""
    else
      var joined := JoinArgs(args[..|args| - 1]);
      var arg := args[|args| - 1];
      if arg == "" then joined
      else if joined == "" then arg
      else joined + "/" + arg
  }

  /** `path.posix.join(...args)`: never empty, and `.` when there is nothing to join. */
  function PathJoin(args: seq<string>): (r: string)
    ensures |r| > 0
    ensures args == [] ==> r == "."
  {
    var joined := JoinArgs(args);
    if joined == "" then "." else Normalize(joined)
  }

  /** Vite's `normalizePath` on a POSIX host: `path.posix.normalize`. The empty path becomes `.`. */
  function NormalizePath(p: string): (r: string)
    ensures |r| > 0
    ensures p == "" ==> r == "."
  {
    Normalize(p)
  }

  // ---------------------------------------------------------------------
  // Splitting and joining segments
  // ---------------------------------------------------------------------

  /** No segment of a split holds a separator. */
  lemma {:induction false} SplitNoSlash(s: string)
    ensures forall k :: 0 <= k < |Split(s)| ==> NoSlash(Split(s)[k])
  {
    if s != [] {
      SplitNoSlash(s[1..]);
      var rest := Split(s[1..]);
      if s[0] != '/' {
        assert NoSlash([s[0]] + rest[0]);
      }
    }
  }

  lemma {:induction false} SplitSegment(a: string)
    requires NoSlash(a)
    ensures Split(a) == [a]
  {
    if a != [] {
      assert a[0] in a;
      assert forall c :: c in a[1..] ==> c in a;
      SplitSegment(a[1..]);
      assert [a[0]] + a[1..] == a;
    }
  }

  lemma {:induction false} SplitAfterSegment(a: string, t: string)
    requires NoSlash(a)
    ensures Split(a + "/" + t) == [a] + Split(t)
  {
    if a == [] {
      assert a + "/" + t == "/" + t;
      assert ("/" + t)[1..] == t;
    } else {
      SplitAfterSegment(a[1..], t);
      assert (a + "/" + t)[1..] == a[1..] + "/" + t;
      assert [a[0]] + a[1..] == a;
    }
  }

  lemma {:induction false} SplitTrailing(t: string)
    ensures Split(t + "/") == Split(t) + [""]
  {
    if t == [] {
      assert Split("/") == [""] + Split("");
    } else {
      SplitTrailing(t[1..]);
      assert (t + "/")[1..] == t[1..] + "/";
    }
  }

  lemma {:induction false} SplitLeading(t: string)
    ensures Split("/" + t) == [""] + Split(t)
  {
    assert ("/" + t)[1..] == t;
  }

  /** Splitting undoes joining, for segments without separators. */
  lemma {:induction false} SplitJoinSegs(r: seq<string>)
    requires |r| >= 1
    requires forall k :: 0 <= k < |r| ==> NoSlash(r[k])
    ensures Split(JoinSegs(r)) == r
  {
    if |r| == 1 {
      SplitSegment(r[0]);
    } else {
      SplitJoinSegs(r[1..]);
      SplitAfterSegment(r[0], JoinSegs(r[1..]));
      assert [r[0]] + r[1..] == r;
    }
  }

  lemma {:induction false} JoinSegsEnds(r: seq<string>)
    requires |r| >= 1
    requires forall k :: 0 <= k < |r| ==> r[k] != "" && NoSlash(r[k])
    ensures |JoinSegs(r)| > 0
    ensures JoinSegs(r)[0] != '/'
    ensures JoinSegs(r)[|JoinSegs(r)| - 1] != '/'
  {
    assert r[0][0] in r[0];
    if |r| > 1 {
      JoinSegsEnds(r[1..]);
      var t := JoinSegs(r[1..]);
      var u := r[0] + "/" + t;
      assert u[0] == r[0][0];
      assert u[|u| - 1] == t[|t| - 1];
    } else {
      assert r[0][|r[0]| - 1] in r[0];
    }
  }

  /** Segments without separators, none empty, are joined with single separators. */
  lemma {:induction false} JoinSegsNoDoubleSlash(r: seq<string>)
    requires |r| >= 1
    requires forall k :: 0 <= k < |r| ==> r[k] != "" && NoSlash(r[k])
    ensures NoDoubleSlash(JoinSegs(r))
  {
    if |r| > 1 {
      JoinSegsEnds(r[1..]);
      JoinSegsNoDoubleSlash(r[1..]);
      var t := JoinSegs(r[1..]);
      var u := r[0] + "/" + t;
      forall i | 0 <= i < |u| - 1
        ensures !(u[i] == '/' && u[i + 1] == '/')
      {
        if i < |r[0]| {
          assert u[i] == r[0][i];
          assert r[0][i] in r[0];
        } else if i == |r[0]| {
          assert u[i + 1] == t[0];
        } else {
          assert u[i] == t[i - |r[0]| - 1];
          assert u[i + 1] == t[i - |r[0]|];
        }
      }
    } else {
      var u := r[0];
      forall i | 0 <= i < |u| - 1
        ensures !(u[i] == '/' && u[i + 1] == '/')
      {
        assert u[i] in u;
      }
    }
  }

  // ---------------------------------------------------------------------
  // Resolving "." and ".."
  // ---------------------------------------------------------------------

  lemma StepResolved(stack: seq<string>, seg: string, allowAboveRoot: bool)
    requires Resolved(stack, allowAboveRoot) && NoSlash(seg)
    ensures Resolved(Step(stack, seg, allowAboveRoot), allowAboveRoot)
  {
  }

  /** Normalisation always produces a stack of the shape `Resolved` describes. */
  lemma {:induction false} ResolveResolved(stack: seq<string>, segs: seq<string>, allowAboveRoot: bool)
    requires Resolved(stack, allowAboveRoot)
    requires forall k :: 0 <= k < |segs| ==> NoSlash(segs[k])
    ensures Resolved(Resolve(stack, segs, allowAboveRoot), allowAboveRoot)
    decreases |segs|
  {
    if segs != [] {
      StepResolved(stack, segs[0], allowAboveRoot);
      ResolveResolved(Step(stack, segs[0], allowAboveRoot), segs[1..], allowAboveRoot);
    }
  }

  lemma {:induction false} ResolveAppend(stack: seq<string>, x: seq<string>, y: seq<string>, allowAboveRoot: bool)
    ensures Resolve(stack, x + y, allowAboveRoot) == Resolve(Resolve(stack, x, allowAboveRoot), y, allowAboveRoot)
    decreases |x|
  {
    if x == [] {
      assert x + y == y;
    } else {
      assert (x + y)[0] == x[0];
      assert (x + y)[1..] == x[1..] + y;
      ResolveAppend(Step(stack, x[0], allowAboveRoot), x[1..], y, allowAboveRoot);
    }
  }

  /** Resolving segments that are already resolved changes nothing. */
  lemma {:induction false} ResolveKeeps(stack: seq<string>, r: seq<string>, allowAboveRoot: bool)
    requires Resolved(stack + r, allowAboveRoot)
    ensures Resolve(stack, r, allowAboveRoot) == stack + r
    decreases |r|
  {
    if r != [] {
      var s := stack + r;
      assert s[|stack|] == r[0];
      if r[0] == ".." {
        assert forall i :: 0 <= i < |stack| ==> stack[i] == s[i];
      }
      assert Step(stack, r[0], allowAboveRoot) == stack + [r[0]];
      assert stack + [r[0]] + r[1..] == s;
      ResolveKeeps(stack + [r[0]], r[1..], allowAboveRoot);
    }
  }

  // ---------------------------------------------------------------------
  // Properties of Normalize
  // ---------------------------------------------------------------------

  /** The stack of segments `Normalize(s)` writes out. */
  function NormalSegs(s: string): seq<string>
    requires s != []
  {
    Resolve([], Split(s), s[0] != '/')
  }

  lemma NormalSegsResolved(s: string)
    requires s != []
    ensures Resolved(NormalSegs(s), s[0] != '/')
  {
    SplitNoSlash(s);
    ResolveResolved([], Split(s), s[0] != '/');
  }

  /** A non-empty resolved stack written out, with the given leading and trailing separators. */
  function Written(isAbsolute: bool, trailingSeparator: bool, r: seq<string>): string
  {
    (if isAbsolute then "/" else "") + JoinSegs(r) + (if trailingSeparator then "/" else "")
  }

  lemma SplitWritten(isAbsolute: bool, trailingSeparator: bool, r: seq<string>)
    requires |r| >= 1 && Resolved(r, !isAbsolute)
    ensures Split(Written(isAbsolute, trailingSeparator, r))
         == (if isAbsolute then [""] else []) + r + (if trailingSeparator then [""] else [])
  {
    SplitWrittenSegments(isAbsolute, trailingSeparator, r);
  }

  lemma SplitWrittenSegments(isAbsolute: bool, trailingSeparator: bool, r: seq<string>)
    requires |r| >= 1 && forall k :: 0 <= k < |r| ==> NoSlash(r[k])
    ensures Split(Written(isAbsolute, trailingSeparator, r))
         == (if isAbsolute then [""] else []) + r + (if trailingSeparator then [""] else [])
  {
    SplitJoinSegs(r);
    SplitWrittenText(isAbsolute, trailingSeparator, JoinSegs(r), r);
  }

  /** The separators written around a body add an empty segment at each end. */
  lemma SplitWrittenText(isAbsolute: bool, trailingSeparator: bool, body: string, r: seq<string>)
    requires Split(body) == r
    ensures Split((if isAbsolute then "/" else "") + body + (if trailingSeparator then "/" else ""))
         == (if isAbsolute then [""] else []) + r + (if trailingSeparator then [""] else [])
  {
    var suf := if trailingSeparator then "/" else "";
    var tail := if trailingSeparator then [""] else [];
    assert Split(body + suf) == r + tail by {
      if trailingSeparator { SplitTrailing(body); } else { assert body + suf == body; }
    }
    if isAbsolute {
      SplitLeading(body + suf);
      assert "/" + body + suf == "/" + (body + suf);
      assert [""] + r + tail == [""] + (r + tail);
    } else {
      assert "" + body + suf == body + suf;
      assert [] + r + tail == r + tail;
    }
  }

  lemma ResolveWritten(isAbsolute: bool, trailingSeparator: bool, r: seq<string>)
    requires Resolved(r, !isAbsolute)
    ensures Resolve([], (if isAbsolute then [""] else []) + r + (if trailingSeparator then [""] else []), !isAbsolute) == r
  {
    var lead := if isAbsolute then [""] else [];
    var tail := if trailingSeparator then [""] else [];
    ResolveAppend([], lead, r + tail, !isAbsolute);
    assert Resolve([], lead, !isAbsolute) == [];
    assert lead + (r + tail) == lead + r + tail;
    ResolveAppend([], r, tail, !isAbsolute);
    ResolveKeeps([], r, !isAbsolute);
    assert [] + r == r;
    assert Resolve(r, tail, !isAbsolute) == r;
  }

  /** Writing out a resolved stack gives a path that normalises to itself. */
  lemma NormalizeWritten(isAbsolute: bool, trailingSeparator: bool, r: seq<string>)
    requires |r| >= 1 && Resolved(r, !isAbsolute)
    ensures Normalize(Written(isAbsolute, trailingSeparator, r)) == Written(isAbsolute, trailingSeparator, r)
  {
    JoinSegsEnds(r);
    var t := Written(isAbsolute, trailingSeparator, r);
    assert t[0] == '/' <==> isAbsolute;
    assert t[|t| - 1] == '/' <==> trailingSeparator;
    SplitWritten(isAbsolute, trailingSeparator, r);
    ResolveWritten(isAbsolute, trailingSeparator, r);
  }

  /** `Normalize` writes out the stack that resolving the segments of `s` leaves, when it is not empty. */
  lemma NormalizeBySegments(s: string, r: seq<string>)
    requires s != [] && Resolve([], Split(s), s[0] != '/') == r && JoinSegs(r) != []
    ensures Normalize(s) == Written(s[0] == '/', s[|s| - 1] == '/', r)
  {
  }

  lemma PathJoinBy(args: seq<string>, joined: string)
    requires JoinArgs(args) == joined && joined != ""
    ensures PathJoin(args) == Normalize(joined)
  {
  }

  /** Normalising a normalised path gives it back unchanged. */
  lemma NormalizeIdempotent(s: string)
    ensures Normalize(Normalize(s)) == Normalize(s)
  {
    if s == [] {
      SplitSegment(".");
    } else {
      var abs := s[0] == '/';
      var trail := s[|s| - 1] == '/';
      var r := NormalSegs(s);
      NormalSegsResolved(s);
      if JoinSegs(r) == [] {
        if abs {
          SplitTrailing("");
        } else if trail {
          assert Split("./") == [".", ""] by {
            assert "" + "/" == "/";
            SplitTrailing("");
            assert Split("/") == ["", ""];
            assert "./"[1..] == "/";
            assert "./"[0] == '.';
            assert ['.'] + "" == ".";
          }
        } else {
          SplitSegment(".");
        }
      } else {
        assert Normalize(s) == Written(abs, trail, r);
        NormalizeWritten(abs, trail, r);
      }
    }
  }

  /** A normalised path is absolute exactly when the input was. */
  lemma NormalizeAbsolute(s: string)
    requires s != []
    ensures Normalize(s)[0] == '/' <==> s[0] == '/'
  {
    var r := NormalSegs(s);
    NormalSegsResolved(s);
    if JoinSegs(r) != [] {
      JoinSegsEnds(r);
    }
  }

  /** A trailing separator survives normalisation. */
  lemma NormalizeTrailing(s: string)
    requires s != [] && s[|s| - 1] == '/'
    ensures Normalize(s)[|Normalize(s)| - 1] == '/'
  {
  }

  /** Normalisation collapses runs of separators. */
  lemma NormalizeNoDoubleSlash(s: string)
    ensures NoDoubleSlash(Normalize(s))
  {
    if s != [] {
      var r := NormalSegs(s);
      var body := JoinSegs(r);
      if body != [] {
        assert Resolved(r, s[0] != '/') by {
          NormalSegsResolved(s);
        }
        JoinSegsEnds(r);
        JoinSegsNoDoubleSlash(r);
        NormalizeBySegments(s, r);
        FramedNoDoubleSlash(if s[0] == '/' then "/" else "", body, if s[|s| - 1] == '/' then "/" else "");
      }
    }
  }

  /** A path with no doubled separator inside stays so with one separator added at either end. */
  lemma FramedNoDoubleSlash(pre: string, body: string, suf: string)
    requires |pre| <= 1 && |suf| <= 1
    requires body != [] && body[0] != '/' && body[|body| - 1] != '/' && NoDoubleSlash(body)
    ensures NoDoubleSlash(pre + body + suf)
  {
    var t := pre + body + suf;
    forall i | 0 <= i < |t| - 1
      ensures !(t[i] == '/' && t[i + 1] == '/')
    {
      if i < |pre| {
        assert t[i + 1] == body[0];
      } else if i < |pre| + |body| - 1 {
        assert t[i] == body[i - |pre|];
        assert t[i + 1] == body[i - |pre| + 1];
      } else {
        assert t[i] == body[|body| - 1];
      }
    }
  }

  // ---------------------------------------------------------------------
  // Properties of PathJoin
  // ---------------------------------------------------------------------

  /** `normalizePath(path.join(...))` is just `path.join(...)`. */
  lemma JoinIsNormal(args: seq<string>)
    ensures NormalizePath(PathJoin(args)) == PathJoin(args)
    ensures NoDoubleSlash(PathJoin(args))
  {
    var joined := JoinArgs(args);
    if joined == "" {
      SplitSegment(".");
      assert PathJoin(args) == ".";
    } else {
      NormalizeIdempotent(joined);
      NormalizeNoDoubleSlash(joined);
    }
  }

  /** The joined arguments begin where the first argument begins. */
  lemma {:induction false} JoinArgsStart(args: seq<string>)
    requires |args| >= 1 && args[0] != ""
    ensures JoinArgs(args) != "" && JoinArgs(args)[0] == args[0][0]
  {
    if |args| == 1 {
      assert args[..0] == [];
    } else {
      var init := args[..|args| - 1];
      assert init[0] == args[0];
      JoinArgsStart(init);
    }
  }

  /** Joining onto an absolute first argument gives an absolute path. */
  lemma JoinAbsolute(args: seq<string>)
    requires |args| >= 1 && args[0] != [] && args[0][0] == '/'
    ensures PathJoin(args) != [] && PathJoin(args)[0] == '/'
  {
    JoinArgsStart(args);
    NormalizeAbsolute(JoinArgs(args));
  }

  // ---------------------------------------------------------------------
  // Joining clean segments
  // ---------------------------------------------------------------------

  /** A path segment that normalisation keeps as it is. */
  predicate Clean(seg: string) {
    seg != "" && seg != "." && seg != ".." && NoSlash(seg)
  }

  lemma SplitCons(c: char, t: string)
    requires c != '/'
    ensures Split([c] + t) == [[c] + Split(t)[0]] + Split(t)[1..]
  {
    assert ([c] + t)[0] == c && ([c] + t)[1..] == t;
  }

  lemma ConsAppend(h: string, sx: seq<string>, sy: seq<string>)
    requires |sx| >= 1
    ensures [h + (sx + sy)[0]] + (sx + sy)[1..] == [h + sx[0]] + sx[1..] + sy
  {
    assert (sx + sy)[0] == sx[0] && (sx + sy)[1..] == sx[1..] + sy;
  }

  lemma {:induction false} SplitConcat(x: string, y: string)
    ensures Split(x + "/" + y) == Split(x) + Split(y)
  {
    if x == [] {
      assert x + "/" + y == "/" + y;
      SplitLeading(y);
    } else {
      var c, x' := x[0], x[1..];
      assert x == [c] + x';
      assert x + "/" + y == [c] + (x' + "/" + y);
      SplitConcat(x', y);
      SplitConcatStep(c, x', y);
    }
  }

  /** One character in front of both sides of `SplitConcat`. */
  lemma SplitConcatStep(c: char, x: string, y: string)
    requires Split(x + "/" + y) == Split(x) + Split(y)
    ensures Split([c] + (x + "/" + y)) == Split([c] + x) + Split(y)
  {
    if c == '/' {
      SplitLeading(x + "/" + y);
      SplitLeading(x);
    } else {
      SplitCharStep(c, x, y);
    }
  }

  lemma SplitCharStep(c: char, x: string, y: string)
    requires c != '/'
    requires Split(x + "/" + y) == Split(x) + Split(y)
    ensures Split([c] + (x + "/" + y)) == Split([c] + x) + Split(y)
  {
    SplitCons(c, x + "/" + y);
    SplitCons(c, x);
    ConsAppend([c], Split(x), Split(y));
  }

  lemma JoinArgsPair(a: string, b: string)
    requires a != "" && b != ""
    ensures JoinArgs([a, b]) == a + "/" + b
  {
    assert JoinArgs([a]) == a by {
      assert [a][..0] == [];
    }
    assert [a, b][..1] == [a];
  }

  lemma JoinArgsTriple(a: string, b: string, c: string)
    requires a != "" && b != "" && c != ""
    ensures JoinArgs([a, b, c]) == a + "/" + b + "/" + c
  {
    JoinArgsPair(a, b);
    assert [a, b, c][..2] == [a, b];
  }

  /** Every segment of a path built from clean segments is clean. */
  predicate AllClean(r: seq<string>) {
    forall k :: 0 <= k < |r| ==> Clean(r[k])
  }

  lemma SplitRootDirectory(q: seq<string>)
    requires |q| >= 1 && forall k :: 0 <= k < |q| ==> NoSlash(q[k])
    ensures Split("/" + ("/" + ("/" + (JoinSegs(q) + "/")))) == [""] + ([""] + ([""] + (q + [""])))
  {
    var b := JoinSegs(q);
    SplitTrailing(b);
    SplitJoinSegs(q);
    SplitLeading(b + "/");
    SplitLeading("/" + (b + "/"));
    SplitLeading("/" + ("/" + (b + "/")));
  }

  lemma ResolveSkipEmpty(stack: seq<string>, x: seq<string>, allowAboveRoot: bool)
    ensures Resolve(stack, [""] + x, allowAboveRoot) == Resolve(stack, x, allowAboveRoot)
  {
    assert ([""] + x)[0] == "" && ([""] + x)[1..] == x;
  }

  lemma ResolveRootDirectory(q: seq<string>)
    requires AllClean(q)
    ensures Resolve([], [""] + ([""] + ([""] + (q + [""]))), false) == q
  {
    ResolveSkipEmpty([], [""] + ([""] + (q + [""])), false);
    ResolveSkipEmpty([], [""] + (q + [""]), false);
    ResolveSkipEmpty([], q + [""], false);
    ResolveAppend([], q, [""], false);
    assert Resolved([] + q, false);
    ResolveKeeps([], q, false);
    assert [] + q == q;
  }

  lemma SplitUnderRoot(r: seq<string>, q: seq<string>)
    requires |r| >= 1 && |q| >= 1
    requires forall k :: 0 <= k < |r| ==> NoSlash(r[k])
    requires forall k :: 0 <= k < |q| ==> NoSlash(q[k])
    ensures Split("/" + ("/" + (JoinSegs(r) + "/" + JoinSegs(q)))) == [""] + ([""] + (r + q))
  {
    var a, b := JoinSegs(r), JoinSegs(q);
    SplitConcat(a, b);
    SplitJoinSegs(r);
    SplitJoinSegs(q);
    SplitLeading(a + "/" + b);
    SplitLeading("/" + (a + "/" + b));
  }

  /** The root, then two relative paths of clean segments, gives one absolute path of them all. */
  lemma JoinUnderRoot(r: seq<string>, q: seq<string>)
    requires |r| >= 1 && |q| >= 1
    requires AllClean(r) && AllClean(q)
    ensures PathJoin(["/", JoinSegs(r), JoinSegs(q)]) == "/" + JoinSegs(r + q)
  {
    var a, b := JoinSegs(r), JoinSegs(q);
    var joined := "/" + ("/" + (a + "/" + b));
    JoinArgsUnderRoot(r, q);
    ResolveUnderRoot(r, q);
    assert Normalize(joined) == "/" + JoinSegs(r + q) by {
      JoinSegsEnds(q);
      JoinSegsEnds(r + q);
      assert joined[0] == '/' && joined[|joined| - 1] == b[|b| - 1];
      NormalizeBySegments(joined, r + q);
    }
    PathJoinBy(["/", a, b], joined);
  }

  lemma JoinArgsUnderRoot(r: seq<string>, q: seq<string>)
    requires |r| >= 1 && |q| >= 1
    requires AllClean(r) && AllClean(q)
    ensures JoinArgs(["/", JoinSegs(r), JoinSegs(q)]) == "/" + ("/" + (JoinSegs(r) + "/" + JoinSegs(q)))
  {
    var a, b := JoinSegs(r), JoinSegs(q);
    assert a != "" && b != "" by {
      JoinSegsEnds(r);
      JoinSegsEnds(q);
    }
    JoinArgsTriple("/", a, b);
    ConcatFive("/", "/", a, "/", b);
  }

  lemma ResolveUnderRoot(r: seq<string>, q: seq<string>)
    requires |r| >= 1 && |q| >= 1
    requires AllClean(r) && AllClean(q)
    ensures Resolve([], Split("/" + ("/" + (JoinSegs(r) + "/" + JoinSegs(q)))), false) == r + q
  {
    SplitUnderRoot(r, q);
    ResolveSkipEmpty([], [""] + (r + q), false);
    ResolveSkipEmpty([], r + q, false);
    AllCleanConcat(r, q);
    AllCleanResolved(r + q, false);
    ResolveKeeps([], r + q, false);
    assert [] + (r + q) == r + q;
  }

  lemma Regroup(a: string, b: string, c: string, d: string, e: string, f: string)
    ensures a + b + c + d + e + f == a + b + (c + d) + (e + f)
  {
  }

  lemma ConcatFive(a: string, b: string, c: string, d: string, e: string)
    ensures a + b + c + d + e == a + (b + (c + d + e))
  {
  }

  lemma ConcatSix(a: string, b: string, c: string, d: string, e: string, f: string)
    ensures a + (b + c + (d + e + f)) == a + b + c + d + e + f
  {
  }

  /** Clean segments are a resolved stack, whichever way `..` is treated. */
  lemma AllCleanResolved(r: seq<string>, allowAboveRoot: bool)
    requires AllClean(r)
    ensures Resolved(r, allowAboveRoot)
  {
  }

  lemma AllCleanConcat(r: seq<string>, q: seq<string>)
    requires AllClean(r) && AllClean(q)
    ensures AllClean(r + q)
  {
    forall i | 0 <= i < |r + q| ensures Clean((r + q)[i]) {
      if i < |r| { assert (r + q)[i] == r[i]; } else { assert (r + q)[i] == q[i - |r|]; }
    }
  }

  /** A relative path of clean segments is already normal. */
  lemma NormalizeClean(r: seq<string>)
    requires |r| >= 1 && AllClean(r)
    ensures Normalize(JoinSegs(r)) == JoinSegs(r)
  {
    var t := JoinSegs(r);
    assert t != [] && t[0] != '/' && t[|t| - 1] != '/' by {
      JoinSegsEnds(r);
    }
    assert Split(t) == r by {
      SplitJoinSegs(r);
    }
    assert Resolve([], r, true) == r by {
      AllCleanResolved(r, true);
      ResolveKeeps([], r, true);
      assert [] + r == r;
    }
    NormalizeRelative(t, r, r, t);
  }

  /** Joining two paths of segments puts one separator between them. */
  lemma {:induction false} JoinSegsAppend(r: seq<string>, q: seq<string>)
    requires |r| >= 1 && |q| >= 1
    ensures JoinSegs(r + q) == JoinSegs(r) + "/" + JoinSegs(q)
    decreases |r|
  {
    if |r| == 1 {
      assert (r + q)[0] == r[0] && (r + q)[1..] == q;
    } else {
      JoinSegsAppend(r[1..], q);
      assert (r + q)[0] == r[0] && (r + q)[1..] == r[1..] + q;
    }
  }

  /** Three relative paths of clean segments join into one path of them all. */
  lemma JoinRelative(p: seq<string>, r: seq<string>, q: seq<string>)
    requires |p| >= 1 && |r| >= 1 && |q| >= 1
    requires AllClean(p) && AllClean(r) && AllClean(q)
    ensures PathJoin([JoinSegs(p), JoinSegs(r), JoinSegs(q)]) == JoinSegs(p + r + q)
  {
    var a, b, c := JoinSegs(p), JoinSegs(r), JoinSegs(q);
    assert JoinArgs([a, b, c]) == a + "/" + b + "/" + c by {
      JoinSegsEnds(p);
      JoinSegsEnds(r);
      JoinSegsEnds(q);
      JoinArgsTriple(a, b, c);
    }
    assert JoinSegs(p + r + q) == a + "/" + b + "/" + c by {
      JoinSegsAppend(p, r);
      JoinSegsAppend(p + r, q);
    }
    assert Normalize(JoinSegs(p + r + q)) == JoinSegs(p + r + q) by {
      AllCleanConcat(p, r);
      AllCleanConcat(p + r, q);
      NormalizeClean(p + r + q);
    }
    PathJoinBy([a, b, c], JoinSegs(p + r + q));
  }

  lemma ResolveDotted(x: seq<string>)
    requires |x| >= 1 && AllClean(x)
    ensures Resolve([], Split("./" + JoinSegs(x)), true) == x
  {
    SplitDotted(x);
    assert Resolve([], ["."] + x, true) == Resolve([], x, true) by {
      assert (["."] + x)[0] == "." && (["."] + x)[1..] == x;
    }
    AllCleanResolved(x, true);
    ResolveKeeps([], x, true);
    assert [] + x == x;
  }

  lemma SplitDotted(x: seq<string>)
    requires |x| >= 1 && AllClean(x)
    ensures Split("./" + JoinSegs(x)) == ["."] + x
  {
    var body := JoinSegs(x);
    assert "./" + body == "." + "/" + body;
    SplitAfterSegment(".", body);
    SplitJoinSegs(x);
  }

  /** A leading "./" before clean segments is dropped by normalisation. */
  lemma NormalizeDotted(x: seq<string>)
    requires |x| >= 1 && AllClean(x)
    ensures Normalize("./" + JoinSegs(x)) == JoinSegs(x)
  {
    var body := JoinSegs(x);
    var t := "./" + body;
    ResolveDotted(x);
    JoinSegsEnds(x);
    assert t[0] == '.' && t[|t| - 1] == body[|body| - 1];
    NormalizeBySegments(t, x);
    assert Written(false, false, x) == body;
  }

  /**
   * A path of clean segments written after "./", joined with another: the
   * leading "." disappears.
   */
  lemma JoinDotted(r: seq<string>, q: seq<string>)
    requires |r| >= 1 && |q| >= 1
    requires AllClean(r) && AllClean(q)
    ensures PathJoin(["./" + JoinSegs(r), JoinSegs(q)]) == JoinSegs(r + q)
  {
    var a, b := JoinSegs(r), JoinSegs(q);
    var joined := "./" + JoinSegs(r + q);
    assert JoinArgs(["./" + a, b]) == joined by {
      JoinSegsEnds(q);
      JoinArgsPair("./" + a, b);
      JoinSegsAppend(r, q);
    }
    assert Normalize(joined) == JoinSegs(r + q) by {
      AllCleanConcat(r, q);
      NormalizeDotted(r + q);
    }
    assert PathJoin(["./" + a, b]) == Normalize(joined);
  }

  /** The root joined with an absolute directory written with a trailing separator. */
  lemma JoinRootDirectory(q: seq<string>)
    requires |q| >= 1 && AllClean(q)
    ensures PathJoin(["/", "/" + JoinSegs(q) + "/"]) == "/" + JoinSegs(q) + "/"
  {
    var b := JoinSegs(q);
    var joined := "/" + ("/" + ("/" + (b + "/")));
    assert JoinArgs(["/", "/" + b + "/"]) == joined by {
      JoinArgsPair("/", "/" + b + "/");
    }
    assert Normalize(joined) == "/" + b + "/" by {
      NormalizeRootDirectory(q);
    }
    PathJoinBy(["/", "/" + b + "/"], joined);
  }

  lemma NormalizeRootDirectory(q: seq<string>)
    requires |q| >= 1 && AllClean(q)
    ensures Normalize("/" + ("/" + ("/" + (JoinSegs(q) + "/")))) == "/" + JoinSegs(q) + "/"
  {
    var b := JoinSegs(q);
    var joined := "/" + ("/" + ("/" + (b + "/")));
    assert Resolve([], Split(joined), false) == q by {
      SplitRootDirectory(q);
      ResolveRootDirectory(q);
    }
    assert b != [] by {
      JoinSegsEnds(q);
    }
    assert joined[0] == '/' && joined[|joined| - 1] == '/';
    NormalizeBySegments(joined, q);
  }

  /**
   * A relative directory of clean segments joined with `/<name>/` + `/<entry>`,
   * as a run path with its trailing separator followed by one more: the
   * doubled separator collapses.
   */
  lemma JoinRunPathEntry(p: seq<string>, name: string, entry: string)
    requires |p| >= 1 && AllClean(p) && Clean(name) && Clean(entry)
    ensures PathJoin([JoinSegs(p), "/" + name + "/" + "/" + entry]) == JoinSegs(p) + "/" + name + "/" + entry
  {
    JoinSegsEnds(p);
    RunPathEntryEnds(name, entry);
    RunPathEntrySegments(p, name, entry, true);
    RunPathEntryWritten(p, name, entry);
    JoinRelativePair(JoinSegs(p), "/" + name + "/" + "/" + entry, p + [name, entry], JoinSegs(p) + "/" + name + "/" + entry);
  }

  /** The same under an absolute directory, as `outDir` is once `configResolved` has run. */
  lemma JoinRunPathEntryAbsolute(p: seq<string>, name: string, entry: string)
    requires |p| >= 1 && AllClean(p) && Clean(name) && Clean(entry)
    ensures PathJoin(["/" + JoinSegs(p), "/" + name + "/" + "/" + entry]) == "/" + JoinSegs(p) + "/" + name + "/" + entry
  {
    JoinSegsEnds(p);
    RunPathEntryEnds(name, entry);
    RunPathEntrySegments(p, name, entry, false);
    RunPathEntryWritten(p, name, entry);
    JoinAbsolutePair(JoinSegs(p), "/" + name + "/" + "/" + entry, p + [name, entry], JoinSegs(p) + "/" + name + "/" + entry);
    SlashPrefixAssoc(JoinSegs(p), name, entry);
  }

  lemma SlashPrefixAssoc(a: string, b: string, c: string)
    ensures "/" + (a + "/" + b + "/" + c) == "/" + a + "/" + b + "/" + c
  {
  }

  /** An absolute path of clean segments joined with a relative one of clean segments. */
  lemma JoinUnderAbsolute(r: seq<string>, q: seq<string>)
    requires |r| >= 1 && |q| >= 1 && AllClean(r) && AllClean(q)
    ensures PathJoin(["/" + JoinSegs(r), JoinSegs(q)]) == "/" + JoinSegs(r + q)
  {
    var a, b := JoinSegs(r), JoinSegs(q);
    assert a != [] && a[0] != '/' && b != [] && b[|b| - 1] != '/' by {
      JoinSegsEnds(r);
      JoinSegsEnds(q);
    }
    assert Resolve([], Split(a) + Split(b), false) == r + q by {
      SplitJoinSegs(r);
      SplitJoinSegs(q);
      AllCleanConcat(r, q);
      AllCleanResolved(r + q, false);
      ResolveKeeps([], r + q, false);
      assert [] + (r + q) == r + q;
    }
    assert JoinSegs(r + q) == a + "/" + b by {
      JoinSegsAppend(r, q);
    }
    JoinAbsolutePair(a, b, r + q, JoinSegs(r + q));
  }

  /** An absolute path joined with a relative one: the segments of both, resolved under the root. */
  lemma JoinAbsolutePair(a: string, y: string, r: seq<string>, w: string)
    requires a != [] && a[0] != '/' && y != [] && y[|y| - 1] != '/'
    requires Resolve([], Split(a) + Split(y), false) == r && JoinSegs(r) == w && w != []
    ensures PathJoin(["/" + a, y]) == "/" + w
  {
    assert JoinArgs(["/" + a, y]) == "/" + a + "/" + y by {
      JoinArgsPair("/" + a, y);
    }
    assert Normalize("/" + a + "/" + y) == "/" + w by {
      NormalizeAbsolutePair(a, y, r, w);
    }
    PathJoinBy(["/" + a, y], "/" + a + "/" + y);
  }

  lemma NormalizeAbsolutePair(a: string, y: string, r: seq<string>, w: string)
    requires a != [] && a[0] != '/' && y != [] && y[|y| - 1] != '/'
    requires Resolve([], Split(a) + Split(y), false) == r && JoinSegs(r) == w && w != []
    ensures Normalize("/" + a + "/" + y) == "/" + w
  {
    SplitAbsolutePair(a, y);
    ResolveSkipEmpty([], Split(a) + Split(y), false);
    AbsolutePairEnds(a, y);
    NormalizeAbsoluteBy("/" + a + "/" + y, [""] + (Split(a) + Split(y)), r, w);
  }

  lemma SplitAbsolutePair(a: string, y: string)
    ensures Split("/" + a + "/" + y) == [""] + (Split(a) + Split(y))
  {
    SplitConcat("/" + a, y);
    SplitLeading(a);
  }

  lemma AbsolutePairEnds(a: string, y: string)
    requires y != [] && y[|y| - 1] != '/'
    ensures ("/" + a + "/" + y)[0] == '/' && ("/" + a + "/" + y)[|"/" + a + "/" + y| - 1] != '/'
  {
  }


  /** An absolute path without a trailing separator is the root followed by the segments it resolves to. */
  lemma NormalizeAbsoluteBy(t: string, segs: seq<string>, r: seq<string>, w: string)
    requires t != [] && t[0] == '/' && t[|t| - 1] != '/'
    requires Split(t) == segs && Resolve([], segs, false) == r && JoinSegs(r) == w && w != []
    ensures Normalize(t) == "/" + w
  {
    NormalizeBySegments(t, r);
  }

  lemma RunPathEntryEnds(name: string, entry: string)
    requires entry != [] && entry[|entry| - 1] != '/'
    ensures var y := "/" + name + "/" + "/" + entry; y != [] && y[|y| - 1] != '/'
  {
    var y := "/" + name + "/" + "/" + entry;
    assert y[|y| - 1] == entry[|entry| - 1];
  }

  lemma RunPathEntrySegments(p: seq<string>, name: string, entry: string, allowAboveRoot: bool)
    requires |p| >= 1 && AllClean(p) && Clean(name) && Clean(entry)
    ensures Resolve([], Split(JoinSegs(p)) + Split("/" + name + "/" + "/" + entry), allowAboveRoot) == p + [name, entry]
  {
    SplitRunPathEntry(name, entry);
    SplitJoinSegs(p);
    ResolveRunPathEntry(p, name, entry, allowAboveRoot);
  }

  lemma RunPathEntryWritten(p: seq<string>, name: string, entry: string)
    requires |p| >= 1
    ensures JoinSegs(p + [name, entry]) == JoinSegs(p) + "/" + name + "/" + entry
  {
    JoinSegsAppend(p, [name, entry]);
    assert JoinSegs([name, entry]) == name + "/" + entry by {
      assert [name, entry][1..] == [entry];
    }
    SlashAssoc(JoinSegs(p), name, entry);
  }

  lemma JoinSegsThree(a: string, b: string, c: string)
    ensures JoinSegs([a, b, c]) == a + "/" + b + "/" + c
  {
    assert JoinSegs([b, c]) == b + "/" + c by {
      assert [b, c][1..] == [c];
    }
    assert JoinSegs([a, b, c]) == a + "/" + JoinSegs([b, c]) by {
      assert [a, b, c][1..] == [b, c];
    }
    SlashAssoc(a, b, c);
  }

  lemma SlashAssoc(a: string, b: string, c: string)
    ensures a + "/" + (b + "/" + c) == a + "/" + b + "/" + c
  {
  }

  lemma JoinRelativePair(a: string, y: string, r: seq<string>, w: string)
    requires a != [] && a[0] != '/' && y != [] && y[|y| - 1] != '/'
    requires Resolve([], Split(a) + Split(y), true) == r && JoinSegs(r) == w && w != []
    ensures PathJoin([a, y]) == w
  {
    assert JoinArgs([a, y]) == a + "/" + y by {
      JoinArgsPair(a, y);
    }
    assert Normalize(a + "/" + y) == w by {
      NormalizePair(a, y, r, w);
    }
    PathJoinBy([a, y], a + "/" + y);
  }

  lemma NormalizePair(a: string, y: string, r: seq<string>, w: string)
    requires a != [] && a[0] != '/' && y != [] && y[|y| - 1] != '/'
    requires Resolve([], Split(a) + Split(y), true) == r && JoinSegs(r) == w && w != []
    ensures Normalize(a + "/" + y) == w
  {
    assert Split(a + "/" + y) == Split(a) + Split(y) by {
      SplitConcat(a, y);
    }
    assert (a + "/" + y)[0] == a[0];
    assert (a + "/" + y)[|a + "/" + y| - 1] == y[|y| - 1];
    NormalizeRelative(a + "/" + y, Split(a) + Split(y), r, w);
  }

  /** A relative path without a trailing separator is written as the segments it resolves to. */
  lemma NormalizeRelative(t: string, segs: seq<string>, r: seq<string>, w: string)
    requires t != [] && t[0] != '/' && t[|t| - 1] != '/'
    requires Split(t) == segs && Resolve([], segs, true) == r && JoinSegs(r) == w && w != []
    ensures Normalize(t) == w
  {
    NormalizeBySegments(t, r);
  }

  lemma SplitRunPathEntry(name: string, entry: string)
    requires Clean(name) && Clean(entry)
    ensures Split("/" + name + "/" + "/" + entry) == [""] + ([name] + ([""] + [entry]))
  {
    assert "/" + name + "/" + "/" + entry == "/" + (name + "/" + ("/" + entry));
    SplitLeading(name + "/" + ("/" + entry));
    SplitAfterSegment(name, "/" + entry);
    SplitLeading(entry);
    SplitSegment(entry);
  }

  lemma ResolveRunPathEntry(p: seq<string>, name: string, entry: string, allowAboveRoot: bool)
    requires AllClean(p) && Clean(name) && Clean(entry)
    ensures Resolve([], p + ([""] + ([name] + ([""] + [entry]))), allowAboveRoot) == p + [name, entry]
  {
    ResolveCleanPrefix(p, [""] + ([name] + ([""] + [entry])), allowAboveRoot);
    ResolveEntryTail(p, name, entry, allowAboveRoot);
  }

  /** Plain segments in front are pushed as they are. */
  lemma ResolveCleanPrefix(p: seq<string>, x: seq<string>, allowAboveRoot: bool)
    requires AllClean(p)
    ensures Resolve([], p + x, allowAboveRoot) == Resolve(p, x, allowAboveRoot)
  {
    ResolveAppend([], p, x, allowAboveRoot);
    AllCleanResolved(p, allowAboveRoot);
    ResolveKeeps([], p, allowAboveRoot);
    assert [] + p == p;
  }

  lemma ResolveEntryTail(p: seq<string>, name: string, entry: string, allowAboveRoot: bool)
    requires Clean(name) && Clean(entry)
    ensures Resolve(p, [""] + ([name] + ([""] + [entry])), allowAboveRoot) == p + [name, entry]
  {
    ResolveSkipEmpty(p, [name] + ([""] + [entry]), allowAboveRoot);
    assert ([name] + ([""] + [entry]))[1..] == [""] + [entry];
    ResolveSkipEmpty(p + [name], [entry], allowAboveRoot);
    assert p + [name] + [entry] == p + [name, entry];
  }


}
