/** The Python `str` operations the back end applies: `strip()`, `replace(old, new)`,
    `find(c)`, `rfind(c)`, slicing, and the containment test of `icontains`. */
module PyStrings {

  /** `str.isspace()` of one character: the characters Python treats as white
      space (Unicode bidirectional classes WS, B and S and general category Zs). */
  predicate IsSpace(c: char) {
    ('\t' <= c <= '\r') || ('\U{1C}' <= c <= ' ')
    || c == '\U{85}' || c == '\U{A0}' || c == '\U{1680}'
    || ('\U{2000}' <= c <= '\U{200A}')
    || c == '\U{2028}' || c == '\U{2029}' || c == '\U{202F}' || c == '\U{205F}' || c == '\U{3000}'
  }

  /** The number of leading white-space characters. */
  function LeadingSpace(s: string): (i: nat)
    ensures i <= |s|
    ensures forall k :: 0 <= k < i ==> IsSpace(s[k])
    ensures i < |s| ==> !IsSpace(s[i])
  {
    if s != [] && IsSpace(s[0]) then 1 + LeadingSpace(s[1..]) else 0
  }

  /** The length of `s` without its trailing white space. */
  function TrailingSpaceStart(s: string): (j: nat)
    ensures j <= |s|
    ensures forall k :: j <= k < |s| ==> IsSpace(s[k])
    ensures j > 0 ==> !IsSpace(s[j - 1])
  {
    if s != [] && IsSpace(s[|s| - 1]) then TrailingSpaceStart(s[..|s| - 1]) else |s|
  }

  /** `s.strip()`: the slice of `s` left once the white space at both ends is removed. */
  function Strip(s: string): (r: string)
    ensures exists i, j :: 0 <= i <= j <= |s| && r == s[i..j]
                           && (forall k :: 0 <= k < i ==> IsSpace(s[k]))
                           && (forall k :: j <= k < |s| ==> IsSpace(s[k]))
    ensures r != [] ==> !IsSpace(r[0]) && !IsSpace(r[|r| - 1])
    ensures (forall k :: 0 <= k < |s| ==> IsSpace(s[k])) <==> r == []
  {
    var i := LeadingSpace(s);
    if i == |s| then
      assert s[i..i] == [];
      ""
    else
      var j := TrailingSpaceStart(s);
      assert i < j;
      s[i..j]
  }

  /** `pat` occurs in `s` at index `i`. */
  predicate OccursAt(s: string, pat: string, i: nat) {
    i + |pat| <= |s| && s[i..i + |pat|] == pat
  }

  /** `s` holds `pat` at some position (Python's `pat in s`). */
  predicate Contains(s: string, pat: string) {
    exists i: nat :: i <= |s| && OccursAt(s, pat, i)
  }

  /** `s.replace(pat, rep)`: every non-overlapping occurrence of `pat`, scanning
      from the left, is replaced by `rep`. */
  function ReplaceAll(s: string, pat: string, rep: string): (r: string)
    requires pat != []
    ensures |rep| <= |pat| ==> |r| <= |s|
    decreases |s|
  {
    if pat <= s then rep + ReplaceAll(s[|pat|..], pat, rep)
    else if s == [] then []
    else [s[0]] + ReplaceAll(s[1..], pat, rep)
  }

  /** A text in which `pat` does not occur comes out of `replace` unchanged. */
  lemma {:induction false} ReplaceAllAbsent(s: string, pat: string, rep: string)
    requires pat != [] && !Contains(s, pat)
    ensures ReplaceAll(s, pat, rep) == s
    decreases |s|
  {
    if pat <= s {
      assert OccursAt(s, pat, 0);
    }
    if s != [] {
      if Contains(s[1..], pat) {
        var i: nat :| i <= |s[1..]| && OccursAt(s[1..], pat, i);
        assert s[i + 1..i + 1 + |pat|] == s[1..][i..i + |pat|];
        assert OccursAt(s, pat, i + 1);
      }
      ReplaceAllAbsent(s[1..], pat, rep);
    }
  }

  const Fence: string := "```"

  /** Removing the fence never leaves a fence behind: a run of back-ticks
      shrinks to fewer than three, and distinct runs stay apart. */
  lemma {:induction false} NoFenceAfterRemoval(s: string)
    ensures !Contains(ReplaceAll(s, Fence, ""), Fence)
    decreases |s|
  {
    var r := ReplaceAll(s, Fence, "");
    if Fence <= s {
      assert r == ReplaceAll(s[3..], Fence, "");
      NoFenceAfterRemoval(s[3..]);
    } else if s != [] {
      var t := s[1..];
      var rt := ReplaceAll(t, Fence, "");
      assert r == [s[0]] + rt;
      NoFenceAfterRemoval(t);
      // `rt` cannot start with two back-ticks when `s[0]` is one.
      if s[0] == '`' {
        if t != [] && t[0] == '`' {
          if |t| >= 2 {
            assert s[..3] == [s[0], t[0], t[1]];
            assert t[1] != '`';
          }
          assert !(Fence <= t);
          var u := t[1..];
          assert rt == "`" + ReplaceAll(u, Fence, "");
          if u != [] {
            KeepsFirstChar(u);
          }
        } else if t != [] {
          KeepsFirstChar(t);
        }
      }
      ConsNoFence(s[0], rt);
    }
  }

  /** Helper: a string that does not start with a back-tick keeps its first character. */
  lemma KeepsFirstChar(s: string)
    requires s != [] && s[0] != '`'
    ensures ReplaceAll(s, Fence, "") != [] && ReplaceAll(s, Fence, "")[0] == s[0]
  {
    assert !(Fence <= s) by { assert s[0] != Fence[0]; }
  }

  /** Helper: a fence in `[c] + t` lies at its start or inside `t`. */
  lemma ConsNoFence(c: char, t: string)
    requires !Contains(t, Fence)
    requires c == '`' ==> !(t != [] && t[0] == '`' && |t| >= 2 && t[1] == '`')
    ensures !Contains([c] + t, Fence)
  {
    var s := [c] + t;
    forall i: nat | i <= |s| ensures !OccursAt(s, Fence, i) {
      if i == 0 {
        if |s| >= 3 {
          assert s[..3] == [c, t[0], t[1]];
        }
      } else if i + 3 <= |s| {
        assert s[i..i + 3] == t[i - 1..i + 2];
        assert !OccursAt(t, Fence, i - 1);
      }
    }
  }

  /** A slice of a string without a fence has none either. */
  lemma SliceNoFence(s: string, i: nat, j: nat)
    requires i <= j <= |s| && !Contains(s, Fence)
    ensures !Contains(s[i..j], Fence)
  {
    forall k: nat | k <= j - i ensures !OccursAt(s[i..j], Fence, k) {
      if k + 3 <= j - i {
        var w := s[i..j];
        assert w[k] == s[i + k] && w[k + 1] == s[i + k + 1] && w[k + 2] == s[i + k + 2];
        assert w[k..k + 3] == s[i + k..i + k + 3];
        assert !OccursAt(s, Fence, i + k);
      }
    }
  }

  /** `s.find(c)`: the first index of `c`, or -1. */
  function Find(s: string, c: char): (r: int)
    ensures -1 <= r < |s|
    ensures r == -1 <==> c !in s
    ensures r >= 0 ==> s[r] == c && c !in s[..r]
  {
    if s == [] then -1
    else if s[0] == c then 0
    else
      var r := Find(s[1..], c);
      assert s == [s[0]] + s[1..];
      if r == -1 then -1
      else
        assert s[..r + 1] == [s[0]] + s[1..][..r];
        r + 1
  }

  /** `s.rfind(c)`: the last index of `c`, or -1. */
  function RFind(s: string, c: char): (r: int)
    ensures -1 <= r < |s|
    ensures r == -1 <==> c !in s
    ensures r >= 0 ==> s[r] == c && c !in s[r + 1..]
  {
    if s == [] then -1
    else if s[|s| - 1] == c then |s| - 1
    else
      assert s == s[..|s| - 1] + [s[|s| - 1]];
      var r := RFind(s[..|s| - 1], c);
      if r >= 0 then
        assert s[r + 1..] == s[..|s| - 1][r + 1..] + [s[|s| - 1]];
        r
      else r
  }

  /** `s[i:j]` with non-negative bounds no larger than `len(s)`: empty when `j <= i`. */
  function Slice(s: string, i: nat, j: nat): (r: string)
    requires i <= |s| && j <= |s|
    ensures i <= j ==> r == s[i..j]
    ensures j <= i ==> r == []
  {
    if i <= j then s[i..j] else []
  }

  /** Lower-casing of the ASCII letters, the case folding `icontains` is modelled with. */
  function LowerChar(c: char): (d: char)
    ensures 'A' <= c <= 'Z' ==> d as int == c as int + 32
    ensures !('A' <= c <= 'Z') ==> d == c
  {
    if 'A' <= c <= 'Z' then (c as int + 32) as char else c
  }

  function Lower(s: string): (r: string)
    ensures |r| == |s|
    ensures forall k :: 0 <= k < |s| ==> r[k] == LowerChar(s[k])
  {
    if s == [] then [] else [LowerChar(s[0])] + Lower(s[1..])
  }

  /** Django's `field__icontains=needle`: `needle` occurs in `hay`, ignoring case. */
  predicate IContains(hay: string, needle: string) {
    Contains(Lower(hay), Lower(needle))
  }
}
