/**
  String helpers the component relies on: ASCII lower-casing (the part of
  `toLowerCase` that matters for protocol names), the last segment of a
  '/'-separated path with a ".js" extension removed (a simplified
  `path.basename(p, '.js')`), and splitting a string at the first occurrence
  of a character (used to read a gateway URL back).
 */
module Text {
  import opened Wrappers

  function LowerChar(c: char): (l: char)
    ensures 'A' <= c <= 'Z' ==> 'a' <= l <= 'z' && l as int == c as int + 32
    ensures !('A' <= c <= 'Z') ==> l == c
  {
    if 'A' <= c <= 'Z' then (c as int + 32) as char else c
  }

  function AsciiLower(s: string): (r: string)
    ensures |r| == |s|
    ensures forall i :: 0 <= i < |s| ==> r[i] == LowerChar(s[i])
  {
    seq(|s|, i requires 0 <= i < |s| => LowerChar(s[i]))
  }

  /**
    The text after the last '/' of `p`, or all of `p` when it has no '/'.
    The three ensures pin the result down: a suffix of `p` without '/',
    preceded by a '/' unless it is the whole path.
   */
  function LastSegment(p: string): (seg: string)
    ensures '/' !in seg
    ensures |seg| <= |p| && p[|p| - |seg|..] == seg
    ensures |seg| < |p| ==> p[|p| - |seg| - 1] == '/'
    decreases |p|
  {
    if |p| == 0 || p[|p| - 1] == '/' then "" else LastSegment(p[..|p| - 1]) + [p[|p| - 1]]
  }

  const JsExtension := ".js"

  /** `seg` without a trailing ".js", when `seg` is longer than ".js". */
  function StripJs(seg: string): (b: string)
    ensures |b| <= |seg| && seg[..|b|] == b
    ensures b == seg || (b + JsExtension == seg && b != "")
  {
    if |seg| > |JsExtension| && seg[|seg| - |JsExtension|..] == JsExtension then
      var b := seg[..|seg| - |JsExtension|];
      assert b + seg[|seg| - |JsExtension|..] == seg;
      b
    else
      seg
  }

  /**
    `path.basename(p, '.js')` for a path without trailing '/': the last
    segment, with ".js" removed when the segment is longer than ".js".
   */
  function BasenameWithoutJs(p: string): (b: string)
    ensures '/' !in b
    ensures b == LastSegment(p) || b + JsExtension == LastSegment(p)
    ensures b + JsExtension == LastSegment(p) ==> b != ""
  {
    var seg := LastSegment(p);
    var b := StripJs(seg);
    assert forall i :: 0 <= i < |b| ==> b[i] == seg[i];
    b
  }

  /** The last segment of a directory (empty, or ending in '/') joined with a file name is that name. */
  lemma LastSegmentOfJoin(dir: string, name: string)
    requires dir == "" || dir[|dir| - 1] == '/'
    requires '/' !in name
    ensures LastSegment(dir + name) == name
  {
    var p := dir + name;
    assert p[|p| - |name|..] == name;
  }

  /** `path.basename(dir + name + '.js', '.js')` gives back `name`. */
  lemma BasenameOfJsFile(dir: string, name: string)
    requires dir == "" || dir[|dir| - 1] == '/'
    requires '/' !in name && name != ""
    ensures BasenameWithoutJs(dir + name + JsExtension) == name
  {
    assert dir + name + JsExtension == dir + (name + JsExtension);
    LastSegmentOfJoin(dir, name + JsExtension);
    var seg := name + JsExtension;
    assert seg[|seg| - |JsExtension|..] == JsExtension;
    assert seg[..|seg| - |JsExtension|] == name;
  }

  /** A file name that does not end in ".js" is its own basename. */
  lemma BasenameOfOtherFile(dir: string, name: string)
    requires dir == "" || dir[|dir| - 1] == '/'
    requires '/' !in name
    requires |name| < |JsExtension| || name[|name| - |JsExtension|..] != JsExtension
    ensures BasenameWithoutJs(dir + name) == name
  {
    LastSegmentOfJoin(dir, name);
  }

  /**
    `s` split around the first occurrence of `c`: the part before it (which
    holds no `c`) and the part after it; None when `c` does not occur.
   */
  function SplitFirst(s: string, c: char): (r: Option<(string, string)>)
    ensures r.None? <==> c !in s
    ensures r.Some? ==> c !in r.value.0 && s == r.value.0 + [c] + r.value.1
    decreases |s|
  {
    if |s| == 0 then None
    else if s[0] == c then Some(([], s[1..]))
    else match SplitFirst(s[1..], c)
      case None => None
      case Some((before, after)) => Some(([s[0]] + before, after))
  }

  /** Splitting `a + [c] + b` at `c`, when `a` has no `c`, gives back `a` and `b`. */
  lemma {:induction false} SplitFirstOfJoin(a: string, c: char, b: string)
    requires c !in a
    ensures SplitFirst(a + [c] + b, c) == Some((a, b))
    decreases |a|
  {
    var s := a + [c] + b;
    if a != [] {
      assert s[0] == a[0] != c;
      assert s[1..] == a[1..] + [c] + b;
      SplitFirstOfJoin(a[1..], c, b);
      assert [a[0]] + a[1..] == a;
    }
  }
}
