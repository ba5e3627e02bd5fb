/**
 * The destination key of a processed object (lambda_function.py, lines 43-44):
 * the key is split with POSIX `os.path.splitext` and `_resized` is inserted
 * between the stem and the extension.
 */
module Keys {
  import opened Wrappers

  /** The text inserted before the extension. */
  const Marker: string := "_resized"

  /** Index of the last occurrence of `c` among the first `n` characters of `s`, or -1. */
  function LastIndexBefore(s: string, c: char, n: nat): (r: int)
    requires n <= |s|
    ensures -1 <= r < n
    ensures r >= 0 ==> s[r] == c
    ensures forall i :: r < i < n ==> s[i] != c
  {
    if n == 0 then -1
    else if s[n - 1] == c then n - 1
    else LastIndexBefore(s, c, n - 1)
  }

  /** Index of the last occurrence of `c` in `s`, or -1 (Python's `str.rfind`). */
  function LastIndexOf(s: string, c: char): (r: int)
    ensures -1 <= r < |s|
    ensures r >= 0 ==> s[r] == c
    ensures forall i :: r < i < |s| ==> s[i] != c
  {
    LastIndexBefore(s, c, |s|)
  }

  /** The three properties above determine the index. */
  lemma LastIndexOfIs(s: string, c: char, r: int)
    requires -1 <= r < |s|
    requires r >= 0 ==> s[r] == c
    requires forall i :: r < i < |s| ==> s[i] != c
    ensures LastIndexOf(s, c) == r
  {
  }

  /** Every character of `s` from index `lo` up to `hi` is a dot. */
  predicate DotsBetween(s: string, lo: int, hi: int)
    requires 0 <= lo && hi <= |s|
  {
    forall i :: lo <= i < hi ==> s[i] == '.'
  }

  /**
   * POSIX `os.path.splitext`: the extension starts at the last '.' if that dot
   * lies in the last path segment and something other than dots precedes it
   * in that segment (leading dots of a hidden file name do not start one).
   * Joining the two parts gives back the path; the extension is empty or a
   * '.' followed by neither '.' nor '/'.
   */
  function SplitExt(p: string): (r: (string, string))
    ensures r.0 + r.1 == p
    ensures r.1 == [] || (r.1[0] == '.' && forall i :: 1 <= i < |r.1| ==> r.1[i] != '.' && r.1[i] != '/')
  {
    var sep := LastIndexOf(p, '/');
    var dot := LastIndexOf(p, '.');
    if dot > sep && !DotsBetween(p, sep + 1, dot) then
      ExtensionShape(p, dot);
      (p[..dot], p[dot..])
    else
      (p, [])
  }

  /** The text from the last dot on is that dot followed by neither '.' nor '/'. */
  lemma ExtensionShape(p: string, dot: int)
    requires dot == LastIndexOf(p, '.') && LastIndexOf(p, '/') < dot
    ensures p[dot..] != [] && p[dot..][0] == '.'
    ensures forall i :: 1 <= i < |p[dot..]| ==> p[dot..][i] != '.' && p[dot..][i] != '/'
  {
    var sep := LastIndexOf(p, '/');
    forall i | 1 <= i < |p[dot..]|
      ensures p[dot..][i] != '.' && p[dot..][i] != '/'
    {
      assert p[dot..][i] == p[dot + i];
      assert sep < dot + i;
    }
  }

  /**
   * The extension is empty exactly when, in the last path segment, nothing
   * but dots comes before any dot.
   */
  lemma {:induction false} SplitExtEmptyIff(p: string)
    ensures SplitExt(p).1 == [] <==>
      forall i, j :: LastIndexOf(p, '/') < i < j < |p| && p[j] == '.' ==> p[i] == '.'
  {
    var sep := LastIndexOf(p, '/');
    var dot := LastIndexOf(p, '.');
    if dot > sep && !DotsBetween(p, sep + 1, dot) {
      var i :| sep + 1 <= i < dot && p[i] != '.';
      assert p[dot] == '.';
    } else if dot > sep {
      forall i, j | sep < i < j < |p| && p[j] == '.' ensures p[i] == '.' {
        assert j <= dot;
      }
    }
  }

  /** The key the processed object is written under. */
  function DestinationKey(key: string): (k: string)
    ensures |k| == |key| + |Marker|
  {
    var (name, ext) := SplitExt(key);
    name + Marker + ext
  }

  /** A key without an extension gets the marker appended, and still has no extension. */
  lemma MarkerWithoutExtension(key: string)
    requires SplitExt(key).1 == []
    ensures SplitExt(key + Marker) == (key + Marker, [])
  {
    var d := key + Marker;
    var sep := LastIndexOf(key, '/');
    var dot := LastIndexOf(key, '.');
    LastIndexOfIs(d, '/', sep);
    LastIndexOfIs(d, '.', dot);
    if dot > sep {
      assert DotsBetween(key, sep + 1, dot);
      assert forall i | sep + 1 <= i < dot :: d[i] == key[i];
    }
  }

  /** A key with an extension gets the marker between its stem and its extension. */
  lemma MarkerBeforeExtension(key: string)
    requires SplitExt(key).1 != []
    ensures var (name, ext) := SplitExt(key);
      SplitExt(name + Marker + ext) == (name + Marker, ext)
  {
    var (name, ext) := SplitExt(key);
    var d := name + Marker + ext;
    var sep := LastIndexOf(key, '/');
    var dot := LastIndexOf(key, '.');
    var m := |name| + |Marker|;
    assert dot == |name| && dot > sep;
    assert d[..|name|] == key[..dot];
    LastIndexOfIs(d, '/', sep);
    LastIndexOfIs(d, '.', m);
    assert d[m - 1] == 'd';
    assert d[..m] == name + Marker;
    assert d[m..] == ext;
  }

  /**
   * Splitting the destination key gives the source's stem with the marker
   * appended and the source's extension unchanged.
   */
  lemma DestinationKeyKeepsExtension(key: string)
    ensures SplitExt(DestinationKey(key)) == (SplitExt(key).0 + Marker, SplitExt(key).1)
  {
    if SplitExt(key).1 == [] {
      MarkerWithoutExtension(key);
      assert DestinationKey(key) == key + Marker;
    } else {
      MarkerBeforeExtension(key);
    }
  }

  /**
   * The source key a destination key was derived from, if the destination's
   * stem ends with the marker.
   */
  function SourceKey(dest: string): Option<string> {
    var (name, ext) := SplitExt(dest);
    if |name| >= |Marker| && name[|name| - |Marker|..] == Marker
    then Some(name[..|name| - |Marker|] + ext)
    else None
  }

  /** Every source key is recovered from its destination key. */
  lemma SourceKeyRoundTrip(key: string)
    ensures SourceKey(DestinationKey(key)) == Some(key)
  {
    DestinationKeyKeepsExtension(key);
    var name := SplitExt(key).0;
    assert (name + Marker)[..|name|] == name;
    assert (name + Marker)[|name|..] == Marker;
  }

  /**
   * A key `stem + ".jpg"` whose stem's last path segment holds a character
   * other than '.' gets `stem + "_resized.jpg"`: the rule
   * `key.replace('.jpg', '_resized.jpg')` agrees for such keys when ".jpg"
   * occurs only at the end.
   */
  lemma DestinationKeyOfJpg(stem: string)
    requires exists i :: LastIndexOf(stem, '/') < i < |stem| && stem[i] != '.'
    ensures DestinationKey(stem + ".jpg") == stem + "_resized.jpg"
  {
    var p := stem + ".jpg";
    var sep := LastIndexOf(stem, '/');
    var i :| sep < i < |stem| && stem[i] != '.';
    LastIndexOfIs(p, '/', sep);
    LastIndexOfIs(p, '.', |stem|);
    assert p[i] != '.';
    assert p[..|stem|] == stem && p[|stem|..] == ".jpg";
  }

  /** A hidden file name has no extension: ".jpg" becomes ".jpg_resized". */
  lemma HiddenNameHasNoExtension()
    ensures DestinationKey(".jpg") == ".jpg_resized"
  {
    LastIndexOfIs(".jpg", '/', -1);
    LastIndexOfIs(".jpg", '.', 0);
  }
}
