/**
 * The two path functions the core calls, `path.basename` and
 * `path.extname`, for `/`-separated paths: trailing separators are
 * ignored, the basename is what follows the last separator, and the
 * extension starts at the last dot of the basename unless that dot is its
 * first character (or the basename is exactly "..").
 */
module NodePath {
  import opened JsValue

  /** The path without its trailing `/` characters. */
  function StripTrailingSlashes(p: string): (r: string)
    ensures |r| <= |p| && r == p[..|r|]
    ensures r == "" || r[|r| - 1] != '/'
    ensures forall i :: |r| <= i < |p| ==> p[i] == '/'
  {
    if |p| > 0 && p[|p| - 1] == '/' then StripTrailingSlashes(p[..|p| - 1]) else p
  }

  /** What follows the last `/` of the path (all of it if it has none). */
  function LastSegment(p: string): (r: string)
    ensures |r| <= |p| && r == p[|p| - |r|..]
    ensures '/' !in r
    ensures |r| < |p| ==> p[|p| - |r| - 1] == '/'
  {
    if |p| == 0 || p[|p| - 1] == '/' then ""
    else
      var init := LastSegment(p[..|p| - 1]);
      assert p[..|p| - 1][|p| - 1 - |init|..] == p[|p| - 1 - |init|..|p| - 1];
      init + [p[|p| - 1]]
  }

  /** `path.basename(p)`. */
  function Basename(p: string): (r: string)
    ensures '/' !in r
    ensures '/' !in p ==> r == p
  {
    LastSegment(StripTrailingSlashes(p))
  }

  /** The basename of `dir/name` is `name`. */
  lemma BasenameAfterDirectory(dir: string, name: string)
    requires name != "" && '/' !in name
    ensures Basename(dir + "/" + name) == name
  {
    var p := dir + "/" + name;
    assert p[|p| - 1] == name[|name| - 1];
    assert StripTrailingSlashes(p) == p;
    assert p[|dir|] == '/';
    assert forall k :: |dir| < k < |p| ==> p[k] == name[k - |dir| - 1];
    var r := LastSegment(p);
    assert |r| == |name|;
    assert p[|p| - |name|..] == name;
  }

  /** The index of the last `.` in `s`, if any. */
  function LastDot(s: string): (r: Option<nat>)
    ensures r.Some? ==> r.value < |s| && s[r.value] == '.'
    ensures r.Some? ==> forall j :: r.value < j < |s| ==> s[j] != '.'
    ensures r.None? <==> '.' !in s
  {
    if |s| == 0 then None
    else if s[|s| - 1] == '.' then Some(|s| - 1)
    else LastDot(s[..|s| - 1])
  }

  /** The extension of a basename: "" or a string that starts with its one
      dot. */
  function Extension(b: string): (r: string)
    ensures r == "" || (r[0] == '.' && '.' !in r[1..])
  {
    match LastDot(b)
    case None => ""
    case Some(i) =>
      if i == 0 || b == ".." then ""
      else b[i..]
  }

  /** `path.extname(p)`. */
  function Extname(p: string): (r: string)
  {
    Extension(Basename(p))
  }

  /** A basename has no extension when its only dot, if any, is its first
      character, or when it is "..". */
  ghost predicate NoExtension(b: string)
  {
    (forall i :: 0 < i < |b| ==> b[i] != '.') || b == ".."
  }

  /** A basename that is a non-empty stem, a dot and a dot-free suffix has
      that suffix as its extension. */
  lemma ExtensionOfStem(stem: string, ext: string)
    requires stem != "" && '.' !in ext && !(stem == "." && ext == "")
    ensures Extension(stem + "." + ext) == "." + ext
  {
    var b := stem + "." + ext;
    var d := |stem|;
    assert b[d] == '.';
    var r := LastDot(b);
    assert r.Some? by { assert b[d] in b; }
    assert r.value == d;
    assert b[..d] == stem;
    assert b == ".." ==> d == 1 && ext == "";
    assert b[d..] == "." + ext;
  }

  /** A basename without an extension has the extension "". */
  lemma ExtensionWithout(b: string)
    requires NoExtension(b)
    ensures Extension(b) == ""
  {
  }

  /** Every basename either has no extension or splits into a non-empty
      stem followed by its extension. */
  lemma ExtensionCases(b: string)
    ensures NoExtension(b) <==> Extension(b) == ""
    ensures Extension(b) != "" ==>
      var e := Extension(b);
      |e| < |b| && b == b[..|b| - |e|] + e && b[..|b| - |e|] != ""
  {
    if !NoExtension(b) {
      var i :| 0 < i < |b| && b[i] == '.';
      assert b[i] in b;
      var d := LastDot(b);
      assert d.Some? && d.value >= i;
      assert b[..d.value] + b[d.value..] == b;
    }
  }
}
