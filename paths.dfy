/**
 * The `pathlib.Path` operations the executor uses, on paths written as strings with `/`
 * separators: `/` (joining), `name`, `suffix`, `stem` and `with_suffix`.
 */
module Paths {
  import opened Wrappers

  /** `str.rfind(c)`: the index of the last occurrence of `c` in `s`. */
  function LastIndexOf(s: string, c: char): (r: Option<nat>)
    ensures r.Some? ==> r.value < |s| && s[r.value] == c
    ensures r.Some? ==> forall j :: r.value < j < |s| ==> s[j] != c
    ensures r.None? ==> forall j :: 0 <= j < |s| ==> s[j] != c
  {
    if s == [] then None
    else if s[|s| - 1] == c then Some(|s| - 1)
    else LastIndexOf(s[..|s| - 1], c)
  }

  /** `Path(dir) / name`: a relative name goes under `dir`, an absolute one replaces it. */
  function Join(dir: string, name: string): string {
    if name != [] && name[0] == '/' then name else dir + "/" + name
  }

  /** `Path(p).name`: the final component, i.e. the text after the last `/`. */
  function Name(p: string): (n: string)
    ensures |n| <= |p| && n == p[|p| - |n|..]
    ensures forall j :: 0 <= j < |n| ==> n[j] != '/'
  {
    match LastIndexOf(p, '/')
    case None => p
    case Some(i) => p[i + 1..]
  }

  /** The final component is everything after the last `/`, or the whole path when it has none. */
  lemma NameAfterLastSlash(p: string)
    ensures |Name(p)| < |p| ==> p[|p| - |Name(p)| - 1] == '/'
    ensures |Name(p)| == |p| ==> forall j :: 0 <= j < |p| ==> p[j] != '/'
  {
  }

  /**
   * `Path(p).suffix`: the final component from its last `.` on, provided that dot is neither the
   * first nor the last character of the component; otherwise empty.
   */
  function Suffix(p: string): (x: string)
    ensures |x| <= |p| && x == p[|p| - |x|..]
    ensures x != [] ==> |x| >= 2 && x[0] == '.' && |x| < |Name(p)|
    ensures forall j :: 0 < j < |x| ==> x[j] != '.' && x[j] != '/'
    ensures var n := Name(p); var d := LastIndexOf(n, '.');
      (x != [] <==> d.Some? && 0 < d.value < |n| - 1) && (x != [] ==> x == n[d.value..])
  {
    var n := Name(p);
    match LastIndexOf(n, '.')
    case None => []
    case Some(i) =>
      if 0 < i < |n| - 1 then
        TailFromLastDot(p, n, i);
        n[i..]
      else []
  }

  /** The text from the last `.` of a final component is a tail of the path with no other `.` or `/`. */
  lemma TailFromLastDot(p: string, n: string, i: nat)
    requires |n| <= |p| && n == p[|p| - |n|..]
    requires forall j :: 0 <= j < |n| ==> n[j] != '/'
    requires 0 < i < |n| - 1 && n[i] == '.'
    requires forall j :: i < j < |n| ==> n[j] != '.'
    ensures var x := n[i..];
      && |x| <= |p| && x == p[|p| - |x|..]
      && |x| >= 2 && x[0] == '.' && |x| < |n|
      && forall j :: 0 < j < |x| ==> x[j] != '.' && x[j] != '/'
  {
    assert n[i..] == p[|p| - |n| + i..];
  }

  /** `Path(p).stem`: the final component without its suffix. */
  function Stem(p: string): (s: string)
    ensures s + Suffix(p) == Name(p)
  {
    var n := Name(p);
    n[..|n| - |Suffix(p)|]
  }

  /** `Path(p).with_suffix(x)`: the path with the suffix of its final component replaced by `x`. */
  function WithSuffix(p: string, x: string): string {
    p[..|p| - |Suffix(p)|] + x
  }

  /**
   * Replacing a path's suffix by that suffix followed by an extension appends the extension:
   * `p.with_suffix(p.suffix + '.gz')` names the sibling `p + '.gz'`.
   */
  lemma AppendExtension(p: string, ext: string)
    ensures WithSuffix(p, Suffix(p) + ext) == p + ext
  {
    ReplaceTail(p, Suffix(p), ext);
  }

  /** Cutting a tail off and putting it back, followed by more, is appending the more. */
  lemma ReplaceTail(p: string, x: string, ext: string)
    requires |x| <= |p| && x == p[|p| - |x|..]
    ensures p[..|p| - |x|] + (x + ext) == p + ext
  {
    var k := |p| - |x|;
    assert p[..k] + x == p;
    assert p[..k] + (x + ext) == (p[..k] + x) + ext;
  }
}
