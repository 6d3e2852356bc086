/** The two pieces of Node's `path` module that path resolution relies on,
    for POSIX paths with '/' as the separator. */
module Paths {

  /** `s` without its trailing '/' characters. */
  function TrimTrailingSlashes(s: string): string {
    if s != [] && s[|s| - 1] == '/' then TrimTrailingSlashes(s[..|s| - 1]) else s
  }

  /** The part of `s` after its last '/'; all of `s` when it has none. */
  function LastSegment(s: string): string {
    if s == [] || s[|s| - 1] == '/' then [] else LastSegment(s[..|s| - 1]) + [s[|s| - 1]]
  }

  /** Trimming keeps a prefix that does not end in '/' and drops only '/'s. */
  lemma {:induction false} TrimmedPrefix(s: string)
    ensures var r := TrimTrailingSlashes(s);
      |r| <= |s| && r == s[..|r|] &&
      (r == [] || r[|r| - 1] != '/') &&
      forall i :: |r| <= i < |s| ==> s[i] == '/'
  {
    if s != [] && s[|s| - 1] == '/' {
      TrimmedPrefix(s[..|s| - 1]);
    }
  }

  /** The last segment is the longest suffix without a '/'. */
  lemma {:induction false} SegmentSuffix(s: string)
    ensures var r := LastSegment(s);
      |r| <= |s| && r == s[|s| - |r|..] &&
      (forall i :: 0 <= i < |r| ==> r[i] != '/') &&
      (|r| < |s| ==> s[|s| - |r| - 1] == '/')
  {
    if !(s == [] || s[|s| - 1] == '/') {
      SegmentSuffix(s[..|s| - 1]);
    }
  }

  /** `path.extname(s) != ""`: the last segment (trailing '/' ignored) has a
      '.' somewhere after its first character, and is not "..". A single
      leading dot (".bashrc") is not an extension; a trailing one ("a.") is. */
  predicate HasExtension(s: string) {
    var seg := LastSegment(TrimTrailingSlashes(s));
    seg != ".." && exists i :: 1 <= i < |seg| && seg[i] == '.'
  }

  /** `path.format({dir, base})`: a falsy `dir` (modelled as "") leaves
      `base` on its own, otherwise the two are joined by the separator. */
  function Format(dir: string, base: string): string {
    if dir == "" then base else dir + "/" + base
  }

  lemma ExtensionNeedsText(s: string)
    requires HasExtension(s)
    ensures |s| >= 2
  {
    var t := TrimTrailingSlashes(s);
    var seg := LastSegment(t);
    TrimmedPrefix(s);
    SegmentSuffix(t);
  }

  /** A name without any '.' has no extension. */
  lemma NoDotNoExtension(s: string)
    requires forall i :: 0 <= i < |s| ==> s[i] != '.'
    ensures !HasExtension(s)
  {
    var t := TrimTrailingSlashes(s);
    var seg := LastSegment(t);
    TrimmedPrefix(s);
    SegmentSuffix(t);
    forall i | 0 <= i < |seg|
      ensures seg[i] != '.'
    {
      assert seg[i] == t[|t| - |seg| + i] == s[|t| - |seg| + i];
    }
  }

  /** A trailing '/' does not change whether a path has an extension. */
  lemma TrailingSlashIgnored(s: string)
    ensures HasExtension(s + "/") == HasExtension(s)
  {
    assert (s + "/")[..|s|] == s;
  }

  /** For a name without any '/', the extension test looks at the whole name. */
  lemma NameExtension(s: string)
    requires forall i :: 0 <= i < |s| ==> s[i] != '/'
    ensures HasExtension(s) <==> s != ".." && exists i :: 1 <= i < |s| && s[i] == '.'
  {
    SegmentOfName(s);
  }

  /** Names that `path.extname` gives an extension: a trailing dot, and a
      dot after a leading one, count. */
  lemma ExtensionEdgeCases()
    ensures HasExtension("a.b") && HasExtension("a.") && HasExtension("..b") && HasExtension("...")
  {
    NameExtension("a.b");
    assert "a.b"[1] == '.';
    NameExtension("a.");
    assert "a."[1] == '.';
    NameExtension("..b");
    assert "..b"[1] == '.';
    NameExtension("...");
    assert "..."[1] == '.';
  }

  /** Names that `path.extname` gives no extension: a leading dot alone
      and "..". */
  lemma NoExtensionEdgeCases()
    ensures !HasExtension(".b") && !HasExtension("..")
  {
    NameExtension(".b");
    NameExtension("..");
  }

  /** Only the last segment counts: a dot in an earlier one gives no
      extension, and neither does a last segment "..". */
  lemma LastSegmentOnly()
    ensures !HasExtension("sub.d/x") && !HasExtension("x/..")
  {
    var t := TrimTrailingSlashes("sub.d/x");
    assert t == "sub.d/x";
    SegmentAfterSeparator("sub.d/", "x");
    assert "sub.d/" + "x" == "sub.d/x";
    var u := TrimTrailingSlashes("x/..");
    assert u == "x/..";
    SegmentAfterSeparator("x/", "..");
    assert "x/" + ".." == "x/..";
  }

  /** The last segment of `p + b` is `b` when `p` ends at a separator and
      `b` holds none. */
  lemma {:induction false} SegmentAfterSeparator(p: string, b: string)
    requires p == [] || p[|p| - 1] == '/'
    requires forall i :: 0 <= i < |b| ==> b[i] != '/'
    ensures LastSegment(p + b) == b
  {
    if b == [] {
      assert p + b == p;
    } else {
      var b' := b[..|b| - 1];
      assert (p + b)[..|p + b| - 1] == p + b';
      SegmentAfterSeparator(p, b');
      assert b' + [b[|b| - 1]] == b;
    }
  }

  /** A name without any '/' is its own last segment. */
  lemma SegmentOfName(s: string)
    requires forall i :: 0 <= i < |s| ==> s[i] != '/'
    ensures LastSegment(TrimTrailingSlashes(s)) == s
  {
    SegmentAfterSeparator([], s);
    assert [] + s == s;
  }

  /** `path.format({dir, base})` followed by taking the last segment gives
      back `base`, whatever the directory. */
  lemma FormatSegment(dir: string, base: string)
    requires forall i :: 0 <= i < |base| ==> base[i] != '/'
    ensures LastSegment(Format(dir, base)) == base
  {
    if dir == "" {
      SegmentAfterSeparator([], base);
      assert [] + base == base;
    } else {
      SegmentAfterSeparator(dir + "/", base);
    }
  }

  lemma FormatNonEmpty(dir: string, base: string)
    requires base != ""
    ensures Format(dir, base) != ""
  {
  }
}
