/** String helpers standing for the Python string operations the pipeline uses:
    `str.endswith`, the `in` substring test, `str.lower`, `str.replace` of one
    character, and the last element of `str.split('.')`. */
module Text {

  /** `s.endswith(suffix)`. */
  predicate EndsWith(s: string, suffix: string)
  {
    |suffix| <= |s| && forall i :: 0 <= i < |suffix| ==> s[|s| - |suffix| + i] == suffix[i]
  }

  /** `needle` occurs in `hay` starting at position `i`. */
  ghost predicate OccursAt(hay: string, needle: string, i: int)
  {
    0 <= i <= |hay| - |needle| && hay[i..i + |needle|] == needle
  }

  /** The meaning of Python's `needle in hay` on strings: some window of `hay` equals `needle`. */
  ghost predicate HasSubstring(hay: string, needle: string)
  {
    exists i :: OccursAt(hay, needle, i)
  }

  /** Executable substring search, scanning start positions left to right. */
  function Contains(hay: string, needle: string): (r: bool)
    ensures r <==> HasSubstring(hay, needle)
    decreases |hay|
  {
    if |needle| > |hay| then
      false
    else if hay[..|needle|] == needle then
      assert OccursAt(hay, needle, 0);
      true
    else
      var rest := Contains(hay[1..], needle);
      assert HasSubstring(hay[1..], needle) ==> HasSubstring(hay, needle) by {
        if HasSubstring(hay[1..], needle) {
          var i :| OccursAt(hay[1..], needle, i);
          assert hay[i + 1..i + 1 + |needle|] == hay[1..][i..i + |needle|];
          assert OccursAt(hay, needle, i + 1);
        }
      }
      assert HasSubstring(hay, needle) ==> HasSubstring(hay[1..], needle) by {
        if HasSubstring(hay, needle) {
          var i :| OccursAt(hay, needle, i);
          assert i != 0;
          assert hay[1..][i - 1..i - 1 + |needle|] == hay[i..i + |needle|];
          assert OccursAt(hay[1..], needle, i - 1);
        }
      }
      rest
  }

  /** Lower-cases one ASCII letter; every other character is left alone. */
  function LowerChar(c: char): char
  {
    if 'A' <= c <= 'Z' then (c as int - 'A' as int + 'a' as int) as char else c
  }

  /** `s.lower()`, restricted to ASCII letters. */
  function Lower(s: string): string
  {
    seq(|s|, i requires 0 <= i < |s| => LowerChar(s[i]))
  }

  /** `s.replace(from, to)` for single characters. */
  function ReplaceChar(s: string, from: char, to: char): string
  {
    seq(|s|, i requires 0 <= i < |s| => if s[i] == from then to else s[i])
  }

  /** The position of the last dot before position `k` of `s`, or -1 when there is none. */
  function LastDot(s: string, k: nat): (r: int)
    requires k <= |s|
    ensures -1 <= r < k
    ensures r >= 0 ==> s[r] == '.'
    ensures forall j :: r < j < k ==> s[j] != '.'
    decreases k
  {
    if k == 0 then -1
    else if s[k - 1] == '.' then k - 1
    else LastDot(s, k - 1)
  }

  /** `s.split('.')[-1]`: the text after the last dot, or all of `s` when it has none. */
  function LastComponent(s: string): (r: string)
    ensures '.' !in r
    ensures |r| <= |s|
    ensures |r| < |s| ==> s[|s| - |r| - 1] == '.'
    ensures EndsWith(s, r)
  {
    var d := LastDot(s, |s|);
    var r := s[d + 1..];
    assert forall i :: 0 <= i < |r| ==> r[i] == s[d + 1 + i];
    r
  }

  /** The last dotted component of a qualified name is the name after its last dot. */
  lemma LastComponentOfQualified(prefix: string, name: string)
    requires '.' !in name
    ensures LastComponent(prefix + "." + name) == name
  {
    var s := prefix + "." + name;
    LastDotPast(s, |prefix|, |s|);
    assert s[|prefix| + 1..] == name;
  }

  /** A name without a dot is its own last component. */
  lemma LastComponentOfPlain(name: string)
    requires '.' !in name
    ensures LastComponent(name) == name
  {
    LastDotNone(name, |name|);
  }

  /** A dot at `d` followed by no dot up to `k` is the last dot before `k`. */
  lemma {:induction false} LastDotPast(s: string, d: nat, k: nat)
    requires d < k <= |s| && s[d] == '.'
    requires forall j :: d < j < k ==> s[j] != '.'
    ensures LastDot(s, k) == d
    decreases k
  {
    if k - 1 != d {
      LastDotPast(s, d, k - 1);
    }
  }

  /** A string with no dot before `k` has no last dot there. */
  lemma {:induction false} LastDotNone(s: string, k: nat)
    requires k <= |s| && forall j :: 0 <= j < k ==> s[j] != '.'
    ensures LastDot(s, k) == -1
    decreases k
  {
    if k > 0 {
      LastDotNone(s, k - 1);
    }
  }
}
