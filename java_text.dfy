/** The java.lang.String operations the plugin relies on, with the exact
    semantics of the JDK calls it makes (indexOf of -1 when absent,
    trim's notion of blank, split's removal of trailing empty pieces). */
module JavaText {

  import opened Wrappers

  /** `s.startsWith(p)` */
  predicate StartsWith(s: string, p: string) {
    |p| <= |s| && s[..|p|] == p
  }

  /** `s.endsWith(p)` */
  predicate EndsWith(s: string, p: string) {
    |p| <= |s| && s[|s| - |p|..] == p
  }

  /** `s.contains(t)`: t occurs somewhere in s */
  predicate Contains(s: string, t: string)
    decreases |s|
  {
    StartsWith(s, t) || (|s| > 0 && Contains(s[1..], t))
  }

  /** t occurs in s at position i */
  predicate OccursAt(s: string, t: string, i: int) {
    0 <= i <= |s| - |t| && s[i..i + |t|] == t
  }

  /** Contains agrees with the positional definition of an occurrence. */
  lemma {:induction false} ContainsIsOccurrence(s: string, t: string)
    ensures Contains(s, t) <==> exists i :: OccursAt(s, t, i)
    decreases |s|
  {
    if StartsWith(s, t) {
      assert OccursAt(s, t, 0);
    } else if |s| == 0 {
      // t is not empty, so it fits nowhere in s
    } else {
      ContainsIsOccurrence(s[1..], t);
      if Contains(s[1..], t) {
        var i :| OccursAt(s[1..], t, i);
        assert s[i + 1..i + 1 + |t|] == s[1..][i..i + |t|];
        assert OccursAt(s, t, i + 1);
      } else {
        forall i | 0 <= i <= |s| - |t| ensures !OccursAt(s, t, i) {
          if i == 0 {
            assert s[..|t|] == s[i..i + |t|];
          } else {
            assert s[i..i + |t|] == s[1..][i - 1..i - 1 + |t|];
            assert !OccursAt(s[1..], t, i - 1);
          }
        }
      }
    }
  }

  /** `s.indexOf(c)`: the position of the first c, or -1 when there is none */
  function IndexOf(s: string, c: char): (r: int)
    ensures -1 <= r < |s|
    ensures r == -1 <==> c !in s
    ensures r >= 0 ==> s[r] == c && c !in s[..r]
  {
    if |s| == 0 then -1
    else if s[0] == c then 0
    else
      var k := IndexOf(s[1..], c);
      if k == -1 then -1
      else
        assert s[..k + 1] == [s[0]] + s[1..][..k];
        k + 1
  }

  /** `s.substring(s.indexOf(c) + 1)`: what follows the first c, or the whole
      of s when there is no c (indexOf gives -1 and substring(0) is s) */
  function After(s: string, c: char): string {
    s[IndexOf(s, c) + 1..]
  }

  /** `s.substring(0, s.indexOf(c))`, which throws when there is no c */
  function Before(s: string, c: char): Option<string> {
    if c in s then Some(s[..IndexOf(s, c)]) else None
  }

  /** Cutting at the first c of `a + [c] + b`, where a holds no c: indexOf
      finds the separator, what precedes it is a and what follows it is b. */
  lemma {:induction false} CutAtFirst(a: string, c: char, b: string)
    requires c !in a
    ensures IndexOf(a + [c] + b, c) == |a|
    ensures After(a + [c] + b, c) == b
    ensures Before(a + [c] + b, c) == Some(a)
  {
    var s := a + [c] + b;
    var r := IndexOf(s, c);
    assert s[|a|] == c && s[..|a|] == a && s[|a| + 1..] == b;
    assert r <= |a| ==> s[..r] == a[..r];
  }

  /** A text in which some character of t never appears does not contain t. */
  lemma {:induction false} MissingCharExcludes(s: string, t: string, j: int)
    requires 0 <= j < |t| && t[j] !in s
    ensures !Contains(s, t)
  {
    forall i | 0 <= i <= |s| - |t|
      ensures !OccursAt(s, t, i)
    {
      assert s[i..i + |t|][j] == s[i + j] && s[i + j] in s;
    }
    ContainsIsOccurrence(s, t);
  }

  /** The result of `while (s.startsWith(" ")) s = s.substring(1);` */
  function DropSpaces(s: string): string
    decreases |s|
  {
    if |s| > 0 && s[0] == ' ' then DropSpaces(s[1..]) else s
  }

  /** What is left is a suffix of s, everything dropped is a space, and what
      is left does not itself start with a space. */
  lemma {:induction false} DropSpacesSuffix(s: string)
    ensures |DropSpaces(s)| <= |s| && DropSpaces(s) == s[|s| - |DropSpaces(s)|..]
    ensures forall i :: 0 <= i < |s| - |DropSpaces(s)| ==> s[i] == ' '
    ensures DropSpaces(s) == [] || DropSpaces(s)[0] != ' '
    decreases |s|
  {
    if |s| > 0 && s[0] == ' ' {
      DropSpacesSuffix(s[1..]);
    }
  }

  /** Stripping a run of spaces off the front of a text that does not itself
      start with a space gives back that text. */
  lemma {:induction false} DropSpacesPad(pad: string, s: string)
    requires forall i :: 0 <= i < |pad| ==> pad[i] == ' '
    requires s == [] || s[0] != ' '
    ensures DropSpaces(pad + s) == s
    decreases |pad|
  {
    if pad == [] {
      assert pad + s == s;
    } else {
      assert (pad + s)[1..] == pad[1..] + s;
      DropSpacesPad(pad[1..], s);
    }
  }

  /** The space-stripping loop itself. */
  method StripLeadingSpaces(s: string) returns (t: string)
    ensures t == DropSpaces(s)
  {
    t := s;
    while StartsWith(t, " ")
      invariant DropSpaces(t) == DropSpaces(s)
      decreases |t|
    {
      assert t[0] == ' ' && DropSpaces(t) == DropSpaces(t[1..]);
      t := t[1..];
    }
  }

  /** `s.trim().isEmpty()`: every character is at most U+0020 */
  predicate IsBlank(s: string)
    decreases |s|
  {
    |s| == 0 || (s[0] <= ' ' && IsBlank(s[1..]))
  }

  /** `Character.toLowerCase(c)` on ASCII */
  function LowerChar(c: char): char {
    if 'A' <= c <= 'Z' then (c as int - 'A' as int + 'a' as int) as char else c
  }

  /** `s.toLowerCase()` on ASCII text */
  function ToLower(s: string): (r: string) {
    seq(|s|, i requires 0 <= i < |s| => LowerChar(s[i]))
  }

  /** Splitting at every '.', keeping every piece (also the empty ones). */
  function Pieces(s: string): (r: seq<string>)
    ensures |r| == Count(s, '.') + 1
    decreases |s|
  {
    if '.' !in s then CountAbsent(s, '.'); [s]
    else
      var k := IndexOf(s, '.');
      CountSplit(s, k);
      CountAbsent(s[..k], '.');
      [s[..k]] + Pieces(s[k + 1..])
  }

  /** The number of occurrences of c in s */
  function Count(s: string, c: char): nat
    decreases |s|
  {
    if |s| == 0 then 0 else (if s[0] == c then 1 else 0) + Count(s[1..], c)
  }

  /** Occurrences are counted across a split point. */
  lemma {:induction false} CountSplit(s: string, k: nat)
    requires k < |s|
    ensures Count(s, s[k]) == Count(s[..k], s[k]) + 1 + Count(s[k + 1..], s[k])
  {
    CountAppend(s[..k], s[k..], s[k]);
    assert s[..k] + s[k..] == s;
    assert s[k..] == [s[k]] + s[k + 1..];
    assert Count(s[k..], s[k]) == 1 + Count(s[k..][1..], s[k]);
    assert s[k..][1..] == s[k + 1..];
  }

  lemma {:induction false} CountAbsent(s: string, c: char)
    requires c !in s
    ensures Count(s, c) == 0
    decreases |s|
  {
    if |s| > 0 {
      CountAbsent(s[1..], c);
    }
  }

  lemma {:induction false} CountAppend(a: string, b: string, c: char)
    ensures Count(a + b, c) == Count(a, c) + Count(b, c)
    decreases |a|
  {
    if |a| > 0 {
      assert (a + b)[1..] == a[1..] + b;
      CountAppend(a[1..], b, c);
    } else {
      assert a + b == b;
    }
  }

  /** Drops the empty pieces at the end, as split with limit 0 does. */
  function DropTrailingEmpty(p: seq<string>): (r: seq<string>)
    ensures |r| <= |p| && r == p[..|r|]
    ensures r == [] || r[|r| - 1] != ""
    decreases |p|
  {
    if |p| > 0 && p[|p| - 1] == "" then DropTrailingEmpty(p[..|p| - 1]) else p
  }

  /** `s.split("\\.")`: when there is no '.' the result is s alone;
      otherwise the pieces with the trailing empty ones removed. */
  function SplitOnDot(s: string): seq<string> {
    if '.' !in s then [s] else DropTrailingEmpty(Pieces(s))
  }

  /** A dot-free first piece comes off the front of the split. */
  lemma {:induction false} PiecesOfDotted(a: string, rest: string)
    requires '.' !in a
    ensures Pieces(a + "." + rest) == [a] + Pieces(rest)
  {
    assert a + "." + rest == a + ['.'] + rest;
    CutAtFirst(a, '.', rest);
  }

  /** split never gives more pieces than there are dots, plus one. */
  lemma {:induction false} SplitBound(s: string)
    ensures |SplitOnDot(s)| <= Count(s, '.') + 1
  {
    if '.' !in s {
      CountAbsent(s, '.');
    }
  }

  /** The parts joined with a dot between each two */
  function JoinDots(parts: seq<string>): string
    requires parts != []
    decreases |parts|
  {
    if |parts| == 1 then parts[0] else parts[0] + "." + JoinDots(parts[1..])
  }

  /** Splitting dot-free parts joined with dots gives the parts back, except
      that split drops the empty ones at the end. */
  lemma {:induction false} SplitOfJoin(parts: seq<string>)
    requires |parts| >= 2
    requires forall i :: 0 <= i < |parts| ==> '.' !in parts[i]
    ensures SplitOnDot(JoinDots(parts)) == DropTrailingEmpty(parts)
  {
    PiecesOfJoin(parts);
    assert JoinDots(parts) == parts[0] + "." + JoinDots(parts[1..]);
    assert JoinDots(parts)[|parts[0]|] == '.';
  }

  lemma {:induction false} PiecesOfJoin(parts: seq<string>)
    requires parts != []
    requires forall i :: 0 <= i < |parts| ==> '.' !in parts[i]
    ensures Pieces(JoinDots(parts)) == parts
    decreases |parts|
  {
    if |parts| == 1 {
      assert Pieces(parts[0]) == [parts[0]];
    } else {
      assert forall i :: 0 <= i < |parts| - 1 ==> parts[1..][i] == parts[i + 1];
      PiecesOfJoin(parts[1..]);
      PiecesOfDotted(parts[0], JoinDots(parts[1..]));
      assert parts == [parts[0]] + parts[1..];
    }
  }
}
