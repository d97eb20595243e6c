/** The string operations the simulator relies on: `split` on a one-character
    separator, global single-character `replace`, and `toUpperCase`. */
module Text {

  /** Number of occurrences of `c` in `s`. */
  function Count(s: string, c: char): nat {
    if s == [] then 0 else (if s[0] == c then 1 else 0) + Count(s[1..], c)
  }

  /** `s.indexOf(c)` for a character known to occur. */
  function IndexOf(s: string, c: char): (i: nat)
    requires c in s
    ensures i < |s| && s[i] == c && c !in s[..i]
  {
    if s[0] == c then 0
    else
      assert c in s[1..] by { assert s == [s[0]] + s[1..]; }
      var j := IndexOf(s[1..], c);
      assert s[..j + 1] == [s[0]] + s[1..][..j];
      1 + j
  }

  lemma IndexOfPrefixFree(a: string, c: char, b: string)
    requires c !in a
    ensures c in a + [c] + b && IndexOf(a + [c] + b, c) == |a|
  {
    var s := a + [c] + b;
    assert s[|a|] == c;
    assert s[..|a|] == a;
  }

  /** `s.split(sep)` for a one-character separator: the maximal pieces
      between separators, including empty ones, and never an empty list. */
  function Split(s: string, sep: char): (parts: seq<string>)
    ensures |parts| >= 1
    ensures forall p :: p in parts ==> sep !in p
    decreases |s|
  {
    if sep !in s then [s]
    else
      var i := IndexOf(s, sep);
      [s[..i]] + Split(s[i + 1..], sep)
  }

  /** `parts.join(sep)`. */
  function Join(parts: seq<string>, sep: char): string
    requires |parts| >= 1
  {
    if |parts| == 1 then parts[0] else parts[0] + [sep] + Join(parts[1..], sep)
  }

  /** Splitting at the first separator: the piece before it comes first. */
  lemma SplitAtFirst(a: string, sep: char, b: string)
    requires sep !in a
    ensures Split(a + [sep] + b, sep) == [a] + Split(b, sep)
  {
    var s := a + [sep] + b;
    IndexOfPrefixFree(a, sep, b);
    assert s[..|a|] == a;
    assert s[|a| + 1..] == b;
  }

  lemma Regroup(a: string, b: string, rest: string, sep: char)
    ensures a + [sep] + b + [sep] + rest == a + [sep] + (b + [sep] + rest)
  {
  }

  /** The first two pieces of `a sep b sep rest` are `a` and `b`. */
  lemma SplitFirstTwo(a: string, b: string, rest: string, sep: char)
    requires sep !in a && sep !in b
    ensures var parts := Split(a + [sep] + b + [sep] + rest, sep);
      |parts| > 1 && parts[0] == a && parts[1] == b
  {
    Regroup(a, b, rest, sep);
    SplitAtFirst(a, sep, b + [sep] + rest);
    SplitAtFirst(b, sep, rest);
  }

  /** Splitting a join of separator-free pieces gives back the pieces. */
  lemma {:induction false} SplitJoin(parts: seq<string>, sep: char)
    requires |parts| >= 1
    requires forall p :: p in parts ==> sep !in p
    ensures Split(Join(parts, sep), sep) == parts
  {
    if |parts| > 1 {
      var rest := parts[1..];
      assert parts[0] in parts;
      forall p | p in rest ensures sep !in p {
        var i :| 0 <= i < |rest| && rest[i] == p;
        assert parts[i + 1] == p;
      }
      SplitJoin(rest, sep);
      assert Join(parts, sep) == parts[0] + [sep] + Join(rest, sep);
      SplitAtFirst(parts[0], sep, Join(rest, sep));
      assert parts == [parts[0]] + rest;
    } else {
      assert parts[0] in parts;
    }
  }

  /** `s.replace(/x/g, [y])`: every occurrence of `x` becomes `y`. */
  function ReplaceChar(s: string, x: char, y: char): (r: string)
    ensures |r| == |s|
    ensures forall i :: 0 <= i < |s| ==> r[i] == (if s[i] == x then y else s[i])
    ensures x !in s ==> r == s
  {
    if s == [] then [] else [if s[0] == x then y else s[0]] + ReplaceChar(s[1..], x, y)
  }

  /** `s.replace(/x/g, '')`: every occurrence of `x` removed, the other
      characters kept in order. */
  function RemoveChar(s: string, x: char): (r: string)
    ensures x !in r
    ensures |r| == |s| - Count(s, x)
    ensures x !in s ==> r == s
    ensures forall c :: c in r ==> c in s
    ensures |s| == 1 ==> r == (if s[0] == x then [] else s)
  {
    if s == [] then []
    else if s[0] == x then RemoveChar(s[1..], x)
    else [s[0]] + RemoveChar(s[1..], x)
  }

  /** Removal works piece by piece: the kept characters of `a + b` are those
      of `a` followed by those of `b`, in order. */
  lemma {:induction false} RemoveCharAppend(a: string, b: string, x: char)
    ensures RemoveChar(a + b, x) == RemoveChar(a, x) + RemoveChar(b, x)
    decreases |a|
  {
    if a != [] {
      assert (a + b)[0] == a[0];
      assert (a + b)[1..] == a[1..] + b;
      RemoveCharAppend(a[1..], b, x);
    } else {
      assert a + b == b;
    }
  }

  /** Replacement works piece by piece. */
  lemma {:induction false} ReplaceCharAppend(a: string, b: string, x: char, y: char)
    ensures ReplaceChar(a + b, x, y) == ReplaceChar(a, x, y) + ReplaceChar(b, x, y)
    decreases |a|
  {
    if a != [] {
      assert (a + b)[0] == a[0];
      assert (a + b)[1..] == a[1..] + b;
      ReplaceCharAppend(a[1..], b, x, y);
    } else {
      assert a + b == b;
    }
  }

  /** `s.toUpperCase()` on the ASCII letters; other characters are kept
      (the full Unicode case mapping is not modelled). */
  function ToUpper(s: string): (r: string)
    ensures |r| == |s|
    ensures forall i :: 0 <= i < |s| ==>
      r[i] == (if 'a' <= s[i] <= 'z' then (s[i] as int - 32) as char else s[i])
  {
    if s == [] then []
    else [if 'a' <= s[0] <= 'z' then (s[0] as int - 32) as char else s[0]] + ToUpper(s[1..])
  }
}
