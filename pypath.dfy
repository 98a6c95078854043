/** The `os.path` operations the ingestion handler relies on, with POSIX semantics. */
module PyPath {

  /** `s.rfind(c)`: the index of the last `c` in `s`, or -1. */
  function RFind(s: string, c: char): (i: int)
    ensures -1 <= i < |s|
    ensures 0 <= i ==> s[i] == c
    ensures forall k :: i < k < |s| ==> s[k] != c
  {
    if |s| == 0 then -1
    else if s[|s| - 1] == c then |s| - 1
    else RFind(s[..|s| - 1], c)
  }

  /** The last occurrence is the one with no occurrence after it. */
  lemma RFindIs(s: string, c: char, i: int)
    requires -1 <= i < |s| && (0 <= i ==> s[i] == c)
    requires forall j :: i < j < |s| ==> s[j] != c
    ensures RFind(s, c) == i
  {
  }

  predicate AllDots(s: string)
  {
    forall k :: 0 <= k < |s| ==> s[k] == '.'
  }

  /** A candidate extension: a dot followed by no dot and no slash. */
  predicate IsExtensionShape(ext: string)
  {
    ext != [] && ext[0] == '.' && forall k :: 1 <= k < |ext| ==> ext[k] != '.' && ext[k] != '/'
  }

  /** The suffix from a last dot that follows the last slash is an extension. */
  lemma SuffixFromLastDot(p: string, sep: int, dot: nat)
    requires -1 <= sep < dot < |p| && p[dot] == '.'
    requires forall k :: dot < k < |p| ==> p[k] != '.'
    requires forall k :: sep < k < |p| ==> p[k] != '/'
    ensures IsExtensionShape(p[dot..])
    ensures p[..dot] + p[dot..] == p
  {
    var ext := p[dot..];
    forall k | 1 <= k < |ext| ensures ext[k] != '.' && ext[k] != '/' {
      assert ext[k] == p[dot + k];
    }
  }

  /**
   * `os.path.splitext(p)` on POSIX: the extension runs from the last `.` of the
   * final path component, provided the part of that component before it is not
   * made of dots only (so ".bashrc" and "..pdf" have no extension).
   */
  function SplitExt(p: string): (parts: (string, string))
    ensures parts.0 + parts.1 == p
    ensures parts.1 != [] ==> IsExtensionShape(parts.1)
    ensures parts.1 != [] ==> RFind(p, '/') + 1 <= |parts.0| && !AllDots(p[RFind(p, '/') + 1..|parts.0|])
  {
    var sep := RFind(p, '/');
    var dot := RFind(p, '.');
    if dot > sep && !AllDots(p[sep + 1..dot]) then
      SuffixFromLastDot(p, sep, dot);
      (p[..dot], p[dot..])
    else (p, "")
  }

  /**
   * Conversely, a dot that is the last one of the final component, after a
   * stem that is not all dots, always starts the extension.
   */
  lemma SplitExtFindsLastDot(p: string, k: nat)
    requires k < |p| && p[k] == '.'
    requires forall j :: k < j < |p| ==> p[j] != '.' && p[j] != '/'
    requires RFind(p, '/') < k && !AllDots(p[RFind(p, '/') + 1..k])
    ensures SplitExt(p).1 == p[k..]
  {
    assert RFind(p, '.') == k;
  }

  /** `os.path.join(a, b)` for two components. */
  function JoinPath(a: string, b: string): (r: string)
    ensures |b| > 0 && b[0] == '/' ==> r == b
    ensures !(|b| > 0 && b[0] == '/') ==> |r| >= |a| + |b| && r[..|a|] == a && r[|r| - |b|..] == b
  {
    if |b| > 0 && b[0] == '/' then b
    else if a == "" || a[|a| - 1] == '/' then a + b
    else a + "/" + b
  }

  /** A name with no directory part whose stem is not all dots splits off its extension. */
  lemma SplitExtOfName(stem: string, ext: string)
    requires forall k :: 0 <= k < |stem| ==> stem[k] != '/'
    requires !AllDots(stem) && IsExtensionShape(ext)
    ensures SplitExt(stem + ext) == (stem, ext)
  {
    var p := stem + ext;
    forall j | 0 <= j < |p| ensures p[j] != '/' {
      if j >= |stem| { assert p[j] == ext[j - |stem|]; }
    }
    RFindIs(p, '/', -1);
    forall j | |stem| < j < |p| ensures p[j] != '.' && p[j] != '/' {
      assert p[j] == ext[j - |stem|];
    }
    assert p[|stem|] == ext[0];
    assert p[0..|stem|] == stem;
    SplitExtFindsLastDot(p, |stem|);
    assert p[|stem|..] == ext;
    assert p[..|stem|] == stem;
  }

  /** A name whose stem is only dots (".png", "..pdf") has no extension. */
  lemma SplitExtOfDotsOnly(stem: string, ext: string)
    requires AllDots(stem) && IsExtensionShape(ext)
    ensures SplitExt(stem + ext) == (stem + ext, "")
  {
    var p := stem + ext;
    forall j | 0 <= j < |p| ensures p[j] != '/' {
      if j >= |stem| { assert p[j] == ext[j - |stem|]; } else { assert p[j] == stem[j]; }
    }
    RFindIs(p, '/', -1);
    forall j | |stem| < j < |p| ensures p[j] != '.' {
      assert p[j] == ext[j - |stem|];
    }
    assert p[|stem|] == ext[0];
    RFindIs(p, '.', |stem|);
    assert p[0..|stem|] == stem;
  }
}
