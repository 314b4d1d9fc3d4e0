/** Go's `path/filepath` functions used by the path rules, for Unix paths
    (no volume names, '/' as the only separator). */
module GoPaths {
  import opened GoStrings

  /** One step of lexical path cleaning: how a path element changes the
      stack of elements kept so far. Empty and "." elements vanish; ".."
      removes the element before it when there is one to remove, is dropped
      at the root of a rooted path, and is kept otherwise. */
  function Step(kept: seq<string>, e: string, rooted: bool): seq<string> {
    if e == "" || e == "." then kept
    else if e == ".." then
      if |kept| > 0 && kept[|kept| - 1] != ".." then kept[..|kept| - 1]
      else if rooted then kept
      else kept + [".."]
    else kept + [e]
  }

  function Walk(kept: seq<string>, elems: seq<string>, rooted: bool): seq<string>
    decreases |elems|
  {
    if elems == [] then kept else Walk(Step(kept, elems[0], rooted), elems[1..], rooted)
  }

  /** `filepath.Clean`: the shortest lexically equivalent path. */
  function Clean(path: string): (r: string)
    ensures |r| >= 1
  {
    if path == "" then "."
    else
      var rooted := path[0] == '/';
      var body := Join(Walk([], Split(path, '/'), rooted), "/");
      if rooted then "/" + body
      else if body == "" then "."
      else body
  }

  /** Index of the last '/' in `s`, or -1 when there is none. */
  function LastSlash(s: string): (i: int)
    ensures -1 <= i < |s|
    ensures i >= 0 ==> s[i] == '/'
    ensures forall k :: i < k < |s| ==> s[k] != '/'
    decreases |s|
  {
    if |s| == 0 then -1
    else if s[|s| - 1] == '/' then |s| - 1
    else LastSlash(s[..|s| - 1])
  }

  /** `s` with every trailing '/' removed. */
  function TrimSlashes(s: string): (r: string)
    ensures r <= s
    ensures |r| > 0 ==> r[|r| - 1] != '/'
    ensures forall k :: |r| <= k < |s| ==> s[k] == '/'
    decreases |s|
  {
    if |s| > 0 && s[|s| - 1] == '/' then TrimSlashes(s[..|s| - 1]) else s
  }

  /** `filepath.Dir`: everything up to the last separator, cleaned. */
  function Dir(path: string): string {
    Clean(path[..LastSlash(path) + 1])
  }

  /** `filepath.Base`: the last element, trailing separators ignored;
      "." for the empty path and "/" for a path of separators only. */
  function Base(path: string): string {
    if path == "" then "."
    else
      var t := TrimSlashes(path);
      var b := t[LastSlash(t) + 1..];
      if b == "" then "/" else b
  }

  predicate HasElement(path: string) {
    exists k :: 0 <= k < |path| && path[k] != '/'
  }

  lemma AfterLastSlash(t: string)
    ensures '/' !in t[LastSlash(t) + 1..]
  {
    var i := LastSlash(t);
    var b := t[i + 1..];
    forall m | 0 <= m < |b| ensures b[m] != '/' {
      assert b[m] == t[i + 1 + m];
    }
  }

  lemma TrimKeepsElement(path: string, k: int)
    requires 0 <= k < |path| && path[k] != '/'
    ensures k < |TrimSlashes(path)|
  {
  }

  /** The base of a path that names something is one non-empty element. */
  lemma BaseIsElement(path: string)
    requires HasElement(path)
    ensures Base(path) != "" && '/' !in Base(path)
  {
    var k :| 0 <= k < |path| && path[k] != '/';
    TrimKeepsElement(path, k);
    var t := TrimSlashes(path);
    var i := LastSlash(t);
    assert i < |t| - 1;
    AfterLastSlash(t);
  }

  /** A final element after a separator is what Base returns. */
  lemma BaseOfAppended(prefix: string, b: string)
    requires b != "" && '/' !in b
    ensures Base(prefix + "/" + b) == b
  {
    var s := prefix + "/" + b;
    assert s[|s| - 1] == b[|b| - 1];
    assert TrimSlashes(s) == s;
    var i := LastSlash(s);
    assert s[|prefix|] == '/';
    assert forall k :: |prefix| < k < |s| ==> s[k] == b[k - |prefix| - 1];
    assert i == |prefix|;
    assert s[i + 1..] == b;
  }

  /** The output path of the "copy into a sub-directory" rule: the original
      file's directory, then `sub`, then the original base name. */
  function CopyPath(orig: string, sub: string): string {
    Dir(orig) + "/" + sub + "/" + Base(orig)
  }

  /** The copy keeps the original file name. */
  lemma CopyPathKeepsBase(orig: string, sub: string)
    requires HasElement(orig)
    ensures Base(CopyPath(orig, sub)) == Base(orig)
  {
    BaseIsElement(orig);
    BaseOfAppended(Dir(orig) + "/" + sub, Base(orig));
  }

  /** Equal strings that share a prefix and two trailing pieces agree on
      the middle piece. */
  lemma MiddleCancel(d: string, a: string, b: string, s: string, t: string)
    requires d + a + s + t == d + b + s + t
    ensures a == b
  {
    assert |a| == |b|;
    forall k | 0 <= k < |a|
      ensures a[k] == b[k]
    {
      assert (d + a + s + t)[|d| + k] == a[k];
      assert (d + b + s + t)[|d| + k] == b[k];
    }
  }

  /** Different sub-directory names never give the same copy path. */
  lemma CopyPathInjective(orig: string, a: string, b: string)
    requires CopyPath(orig, a) == CopyPath(orig, b)
    ensures a == b
  {
    MiddleCancel(Dir(orig) + "/", a, b, "/", Base(orig));
  }
}
