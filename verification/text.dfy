/**
 * String helpers the tally relies on: ASCII lower-casing, substring search
 * (Python's `in` on strings) and the file-name part of a Windows path
 * (`path.split('\\')[-1]`).
 */
module Text {

  predicate IsUpper(c: char) {
    'A' <= c <= 'Z'
  }

  /** Lower-cases one ASCII letter; every other character is left as it is. */
  function LowerChar(c: char): (d: char)
    ensures !IsUpper(d)
    ensures d == c <==> !IsUpper(c)
    ensures IsUpper(c) ==> d as int - c as int == 'a' as int - 'A' as int
  {
    if IsUpper(c) then (c as int - 'A' as int + 'a' as int) as char else c
  }

  /** ASCII `str.lower()`: the same length, each character lower-cased in place. */
  function Lower(s: string): (r: string)
    ensures |r| == |s|
    ensures forall i :: 0 <= i < |s| ==> r[i] == LowerChar(s[i])
  {
    seq(|s|, i requires 0 <= i < |s| => LowerChar(s[i]))
  }

  /** Lower-casing twice is lower-casing once. */
  lemma LowerIdempotent(s: string)
    ensures Lower(Lower(s)) == Lower(s)
  {
  }

  /** `p` occurs in `s` starting at index `i`. */
  ghost predicate OccursAt(p: string, s: string, i: int) {
    0 <= i && i + |p| <= |s| && s[i..i + |p|] == p
  }

  /** Reference meaning of Python's `p in s`: some position where `p` occurs. */
  ghost predicate Contains(s: string, p: string) {
    exists i :: OccursAt(p, s, i)
  }

  /** Moving past a first character where `p` does not start keeps every other occurrence. */
  lemma ContainsShift(s: string, p: string)
    requires |s| > 0 && !OccursAt(p, s, 0)
    ensures Contains(s, p) <==> Contains(s[1..], p)
  {
    if Contains(s, p) {
      var i :| OccursAt(p, s, i);
      assert s[1..][i - 1..i - 1 + |p|] == s[i..i + |p|];
      assert OccursAt(p, s[1..], i - 1);
    }
    if Contains(s[1..], p) {
      var j :| OccursAt(p, s[1..], j);
      assert s[1..][j..j + |p|] == s[j + 1..j + 1 + |p|];
      assert OccursAt(p, s, j + 1);
    }
  }

  /** Executable substring test, scanning start positions left to right. */
  function HasSubstring(s: string, p: string): (r: bool)
    ensures r <==> Contains(s, p)
    decreases |s|
  {
    if |p| > |s| then
      assert forall i :: !OccursAt(p, s, i);
      false
    else if s[..|p|] == p then
      assert OccursAt(p, s, 0);
      true
    else
      ContainsShift(s, p);
      HasSubstring(s[1..], p)
  }

  /** A pattern with a character that the text lacks cannot occur in it. */
  lemma MissingCharNotContained(s: string, p: string, k: int)
    requires 0 <= k < |p| && p[k] !in s
    ensures !Contains(s, p)
  {
    forall i | 0 <= i && i + |p| <= |s|
      ensures !OccursAt(p, s, i)
    {
      assert s[i..i + |p|][k] == s[i + k];
    }
  }

  /**
   * The last backslash-separated segment of a path: the longest suffix that
   * holds no backslash (empty when the path ends with one).
   */
  function ImageName(path: string): (name: string)
    ensures '\\' !in name
    ensures |name| <= |path| && name == path[|path| - |name|..]
    ensures |name| < |path| ==> path[|path| - |name| - 1] == '\\'
  {
    if |path| == 0 then ""
    else if path[|path| - 1] == '\\' then ""
    else ImageName(path[..|path| - 1]) + [path[|path| - 1]]
  }

  /** The name of `dir\file` is `file`, whatever the directory. */
  lemma ImageNameOfJoin(dir: string, file: string)
    requires '\\' !in file
    ensures ImageName(dir + "\\" + file) == file
  {
    var path := dir + "\\" + file;
    var name := ImageName(path);
    assert path[|path| - |file| - 1] == '\\';
    assert |name| == |file|;
    assert name == path[|path| - |file|..] == file;
  }

  /** A path without any backslash is its own name. */
  lemma ImageNameWithoutSeparator(path: string)
    requires '\\' !in path
    ensures ImageName(path) == path
  {
  }
}
