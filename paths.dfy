/** Path computations of the updater: `os.path.join` on POSIX, and the
    working name the command branch of `get_plugin` derives from a locator
    with `split('/')[-1]` and `rpartition('.')[0]`. */
module Paths {
  import opened Basics

  /** `os.path.join(a, b)` (posixpath): an absolute b replaces a; otherwise b
      is appended, with a `/` unless a is empty or already ends in one. */
  function Join(a: string, b: string): (r: string)
  {
    if b != [] && b[0] == '/' then b
    else if a == [] || a[|a| - 1] == '/' then a + b
    else a + "/" + b
  }

  /** A non-empty path that neither starts nor ends with `/`. */
  predicate Segment(s: string)
  {
    s != [] && s[0] != '/' && s[|s| - 1] != '/'
  }

  /** A non-empty directory path, absolute or relative, without a trailing
      `/`, such as the staging directory `/home/u/.vim/bundle-new`. */
  predicate DirName(s: string)
  {
    s != [] && s[|s| - 1] != '/'
  }

  /** Joining a relative name to a directory that does not end in `/` puts
      exactly one separator between them. */
  lemma JoinSegment(a: string, b: string)
    requires DirName(a) && b != [] && b[0] != '/'
    ensures Join(a, b) == a + "/" + b
  {
  }

  /** `s.split('/')[-1]`: the text after the last `/`, or all of s. */
  function LastSegment(s: string): (r: string)
    decreases |s|
  {
    if s == [] || s[|s| - 1] == '/' then []
    else LastSegment(s[..|s| - 1]) + [s[|s| - 1]]
  }

  /** The last segment is a suffix without `/` that follows a `/` or starts s. */
  lemma {:induction false} LastSegmentShape(s: string)
    ensures var r := LastSegment(s);
            '/' !in r && |r| <= |s| && s[|s| - |r|..] == r &&
            (|r| < |s| ==> s[|s| - |r| - 1] == '/')
    decreases |s|
  {
    if s != [] && s[|s| - 1] != '/' {
      var s' := s[..|s| - 1];
      LastSegmentShape(s');
      var r' := LastSegment(s');
      assert s[|s| - |r'| - 1..] == s'[|s'| - |r'|..] + [s[|s| - 1]];
      if |r'| < |s'| {
        assert s[|s| - |r'| - 2] == s'[|s'| - |r'| - 1];
      }
    }
  }

  /** `s.rpartition('.')[0]` for an s that contains a `.`: the text before
      its last `.`. */
  function BeforeLastDot(s: string): (r: string)
    requires '.' in s
    decreases |s|
  {
    if s[|s| - 1] == '.' then s[..|s| - 1] else BeforeLastDot(s[..|s| - 1])
  }

  /** What precedes the last `.` is a prefix followed by that `.`. */
  lemma {:induction false} BeforeLastDotShape(s: string)
    requires '.' in s
    ensures var r := BeforeLastDot(s);
            |r| < |s| && s[..|r|] == r && s[|r|] == '.' && '.' !in s[|r| + 1..]
    decreases |s|
  {
    if s[|s| - 1] != '.' {
      var s' := s[..|s| - 1];
      assert '.' in s' by {
        var i :| 0 <= i < |s| && s[i] == '.';
        assert s'[i] == '.';
      }
      BeforeLastDotShape(s');
      var r := BeforeLastDot(s');
      assert s[|r| + 1..] == s'[|r| + 1..] + [s[|s| - 1]];
    }
  }

  /** The name of the working directory of a command getter: the last
      segment of the locator without its extension. An empty name stops
      the run with exit code 4. */
  function WorkingName(url: string): (r: Result<string>)
    ensures r.Fail? ==> r.code == ExitBadName
  {
    var seg := LastSegment(url);
    var name := if '.' in seg then BeforeLastDot(seg) else seg;
    if name == [] then Fail(ExitBadName) else Ok(name)
  }

  /** A working name is a non-empty single path segment. */
  lemma WorkingNameShape(url: string)
    ensures WorkingName(url).Ok? ==> WorkingName(url).value != [] && '/' !in WorkingName(url).value
  {
    var seg := LastSegment(url);
    LastSegmentShape(url);
    if '.' in seg {
      BeforeLastDotShape(seg);
      var name := BeforeLastDot(seg);
      assert seg[..|name|] == name;
    }
  }

  /** The last segment of dir + seg is seg when dir is empty or ends in `/`. */
  lemma LastSegmentOf(dir: string, seg: string)
    requires dir == [] || dir[|dir| - 1] == '/'
    requires '/' !in seg
    ensures LastSegment(dir + seg) == seg
  {
    var s := dir + seg;
    LastSegmentShape(s);
    assert s[|s| - |seg|..] == seg;
    assert dir != [] ==> s[|s| - |seg| - 1] == '/';
  }

  /** Before the last `.` of base + "." + ext, for an ext without `.`, is base. */
  lemma BeforeLastDotOf(base: string, ext: string)
    requires '.' !in ext
    ensures BeforeLastDot(base + "." + ext) == base
  {
    var s := base + "." + ext;
    assert s[|base|] == '.';
    BeforeLastDotShape(s);
    assert s[..|base|] == base;
    assert s[|base| + 1..] == ext;
  }

  /** For a locator dir/base.ext the working name is base, or exit code 4
      when base is empty (a hidden file such as `.vimrc`). */
  lemma WorkingNameWithExtension(dir: string, base: string, ext: string)
    requires dir == [] || dir[|dir| - 1] == '/'
    requires '/' !in base && '/' !in ext && '.' !in ext
    ensures WorkingName(dir + (base + "." + ext)) == if base == [] then Fail(ExitBadName) else Ok(base)
  {
    var seg := base + "." + ext;
    assert '/' !in seg;
    LastSegmentOf(dir, seg);
    assert seg[|base|] == '.';
    BeforeLastDotOf(base, ext);
  }

  /** For a locator dir/seg whose last segment has no `.` the working name is
      seg, or exit code 4 when seg is empty. */
  lemma WorkingNameWithoutExtension(dir: string, seg: string)
    requires dir == [] || dir[|dir| - 1] == '/'
    requires '/' !in seg && '.' !in seg
    ensures WorkingName(dir + seg) == if seg == [] then Fail(ExitBadName) else Ok(seg)
  {
    LastSegmentOf(dir, seg);
  }

  /** A locator that ends in `/` yields no name. */
  lemma WorkingNameTrailingSlash(url: string)
    requires url != [] && url[|url| - 1] == '/'
    ensures WorkingName(url) == Fail(ExitBadName)
  {
    assert url + [] == url;
    LastSegmentOf(url, []);
  }
}
