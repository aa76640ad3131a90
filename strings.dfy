/** The string operations the source uses: `startsWith`, `includes` and `join`. */
module Strings {

  /** JavaScript's `s.length`: the number of UTF-16 code units, two for a
      character beyond the Basic Multilingual Plane and one for any other. */
  function Utf16Length(s: string): (n: nat)
    ensures |s| <= n <= 2 * |s|
    ensures n == 0 <==> s == []
    decreases |s|
  {
    if s == [] then 0 else (if s[0] as int >= 0x1_0000 then 2 else 1) + Utf16Length(s[1..])
  }

  /** `s.startsWith(prefix)`. */
  predicate StartsWith(s: string, prefix: string)
  {
    |prefix| <= |s| && s[..|prefix|] == prefix
  }

  /** `sub` sits in `s` at position `i`. */
  ghost predicate OccursAt(s: string, sub: string, i: int)
  {
    0 <= i && i + |sub| <= |s| && s[i..i + |sub|] == sub
  }

  /** `s.includes(sub)`, computed by trying every start position in turn. */
  predicate Contains(s: string, sub: string)
    decreases |s|
  {
    StartsWith(s, sub) || (|s| > 0 && Contains(s[1..], sub))
  }

  /** `Contains` holds exactly when `sub` occurs somewhere in `s`. */
  lemma {:induction false} ContainsIff(s: string, sub: string)
    ensures Contains(s, sub) <==> exists i :: OccursAt(s, sub, i)
    decreases |s|
  {
    if |s| > 0 {
      ContainsIff(s[1..], sub);
    }
    if StartsWith(s, sub) {
      assert s[0..|sub|] == s[..|sub|];
      assert OccursAt(s, sub, 0);
    } else if Contains(s, sub) {
      var j :| OccursAt(s[1..], sub, j);
      assert s[1..][j..j + |sub|] == s[j + 1..j + 1 + |sub|];
      assert OccursAt(s, sub, j + 1);
    }
    if exists i :: OccursAt(s, sub, i) {
      var i :| OccursAt(s, sub, i);
      if i == 0 {
        assert s[..|sub|] == s[0..|sub|];
      } else {
        assert s[1..][i - 1..i - 1 + |sub|] == s[i..i + |sub|];
        assert OccursAt(s[1..], sub, i - 1);
      }
    }
  }

  /** `parts.join(sep)`. */
  function Join(parts: seq<string>, sep: string): string
    decreases |parts|
  {
    if |parts| == 0 then ""
    else if |parts| == 1 then parts[0]
    else parts[0] + sep + Join(parts[1..], sep)
  }

  /** Where part `i` starts in `Join(parts, sep)`: every earlier part and one
      separator after each of them. */
  function Offset(parts: seq<string>, sep: string, i: nat): nat
    requires i <= |parts|
    decreases i
  {
    if i == 0 then 0 else Offset(parts, sep, i - 1) + |parts[i - 1]| + |sep|
  }

  /** The layout of a joined string: part `i` sits at `Offset(parts, sep, i)`,
      and unless it is the last part a separator follows it. */
  lemma {:induction false} JoinLayout(parts: seq<string>, sep: string, i: nat)
    requires i < |parts|
    ensures Offset(parts, sep, i) + |parts[i]| <= |Join(parts, sep)|
    ensures OccursAt(Join(parts, sep), parts[i], Offset(parts, sep, i))
    ensures i + 1 < |parts| ==> OccursAt(Join(parts, sep), sep, Offset(parts, sep, i) + |parts[i]|)
    decreases |parts|
  {
    var whole := Join(parts, sep);
    if |parts| == 1 {
      OccursAtStart(parts[0], "");
    } else if i == 0 {
      var rest := Join(parts[1..], sep);
      assert whole == parts[0] + (sep + rest);
      OccursAtStart(parts[0], sep + rest);
      OccursAtStart(sep, rest);
      OccursShifted(parts[0], sep + rest, sep, 0);
    } else {
      var rest := parts[1..];
      JoinLayout(rest, sep, i - 1);
      OffsetShift(parts, sep, i);
      assert whole == (parts[0] + sep) + Join(rest, sep);
      var o := Offset(rest, sep, i - 1);
      OccursShifted(parts[0] + sep, Join(rest, sep), parts[i], o);
      if i + 1 < |parts| {
        OccursShifted(parts[0] + sep, Join(rest, sep), sep, o + |parts[i]|);
      }
    }
  }

  /** A string occurs at the start of anything it begins. */
  lemma OccursAtStart(a: string, b: string)
    ensures OccursAt(a + b, a, 0)
  {
    assert (a + b)[..|a|] == a;
  }

  /** An occurrence in `b` is one in `a + b`, moved along by `a`. */
  lemma OccursShifted(a: string, b: string, sub: string, k: int)
    requires OccursAt(b, sub, k)
    ensures OccursAt(a + b, sub, |a| + k)
  {
    assert (a + b)[|a| + k..|a| + k + |sub|] == b[k..k + |sub|];
  }

  /** Dropping the first part moves every later offset back by that part and one separator. */
  lemma {:induction false} OffsetShift(parts: seq<string>, sep: string, i: nat)
    requires 1 <= i <= |parts|
    ensures Offset(parts, sep, i) == |parts[0]| + |sep| + Offset(parts[1..], sep, i - 1)
    decreases i
  {
    if i > 1 {
      OffsetShift(parts, sep, i - 1);
    }
  }

  /** Offsets grow strictly when the separator is not empty: parts appear in order. */
  lemma {:induction false} OffsetIncreasing(parts: seq<string>, sep: string, i: nat, j: nat)
    requires i < j <= |parts| && |sep| > 0
    ensures Offset(parts, sep, i) + |parts[i]| < Offset(parts, sep, j)
    decreases j
  {
    if j > i + 1 {
      OffsetIncreasing(parts, sep, i, j - 1);
    }
  }
}
