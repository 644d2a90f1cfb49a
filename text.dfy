/** The JavaScript string operations the renderer and the settings tab are built
    from: `padEnd`, `split` on one character, `join` and `trim`. Strings are
    sequences of characters. */
module Text {

  predicate StartsWith(s: string, prefix: string)
  {
    |prefix| <= |s| && s[..|prefix|] == prefix
  }

  predicate EndsWith(s: string, suffix: string)
  {
    |suffix| <= |s| && s[|s| - |suffix|..] == suffix
  }

  lemma AppendAssoc(a: string, b: string, c: string)
    ensures (a + b) + c == a + (b + c)
  {
  }

  /** Dropping a front part leaves the rest. */
  lemma DropFront(a: string, b: string)
    ensures (a + b)[|a|..] == b
  {
  }

  /** A string that differs from `p` at some index of both does not start with `p`. */
  lemma NotPrefixAt(s: string, p: string, i: nat)
    requires i < |s| && i < |p| && s[i] != p[i]
    ensures !StartsWith(s, p)
  {
  }

  /** Two prefixes that differ at some index cannot both begin `s`. */
  lemma OtherPrefix(s: string, p: string, q: string, i: nat)
    requires StartsWith(s, p)
    requires i < |p| && i < |q| && p[i] != q[i]
    ensures !StartsWith(s, q)
  {
    assert s[i] == s[..|p|][i];
  }

  /** Number of occurrences of `c` in `s`. */
  function Count(s: string, c: char): nat
  {
    if s == [] then 0 else (if s[0] == c then 1 else 0) + Count(s[1..], c)
  }

  lemma {:induction false} CountConcat(a: string, b: string, c: char)
    ensures Count(a + b, c) == Count(a, c) + Count(b, c)
  {
    if a == [] {
      assert a + b == b;
    } else {
      assert (a + b)[1..] == a[1..] + b;
      CountConcat(a[1..], b, c);
    }
  }

  lemma {:induction false} CountAbsent(s: string, c: char)
    ensures Count(s, c) == 0 <==> c !in s
  {
    if s != [] {
      CountAbsent(s[1..], c);
      assert s == [s[0]] + s[1..];
    }
  }

  /** `n` spaces. */
  function Spaces(n: nat): (r: string)
    ensures |r| == n
    ensures forall i :: 0 <= i < n ==> r[i] == ' '
  {
    seq(n, _ => ' ')
  }

  /** `s.padEnd(n)`: `s` followed by spaces up to length `n`; `s` itself when it is
      already at least that long. */
  function PadEnd(s: string, n: nat): (r: string)
    ensures |r| == if |s| < n then n else |s|
    ensures r[..|s|] == s
    ensures forall i :: |s| <= i < |r| ==> r[i] == ' '
  {
    if |s| < n then s + Spaces(n - |s|) else s
  }

  /** Padding adds no character other than a space. */
  lemma PadEndKeeps(s: string, n: nat, c: char)
    requires c != ' '
    ensures c in PadEnd(s, n) <==> c in s
    ensures Count(PadEnd(s, n), c) == Count(s, c)
  {
    var r := PadEnd(s, n);
    assert r == s + r[|s|..];
    CountAbsent(r[|s|..], c);
    CountConcat(s, r[|s|..], c);
  }

  /** `parts.join(sep)`: empty for no parts; otherwise it opens with the first
      part and closes with the last. */
  function Join(parts: seq<string>, sep: string): (r: string)
    ensures |parts| == 0 ==> r == ""
    ensures |parts| >= 1 ==> StartsWith(r, parts[0]) && EndsWith(r, parts[|parts| - 1])
  {
    if |parts| == 0 then ""
    else if |parts| == 1 then parts[0]
    else
      var rest := Join(parts[1..], sep);
      JoinedEnds(parts[0], sep, rest, parts[|parts| - 1]);
      parts[0] + sep + rest
  }

  /** Two texts joined by a separator start with the first and end with
      whatever the second ends with. */
  lemma JoinedEnds(first: string, sep: string, rest: string, last: string)
    requires EndsWith(rest, last)
    ensures StartsWith(first + sep + rest, first) && EndsWith(first + sep + rest, last)
  {
    var w := first + sep + rest;
    assert w[..|first|] == first;
    assert w[|w| - |last|..] == rest[|rest| - |last|..];
  }

  /** `s.split(c)` for a one-character separator: the pieces between the
      occurrences of `c`, empty pieces included, so there is always one more
      piece than there are separators. */
  function Split(s: string, c: char): (r: seq<string>)
    ensures |r| == Count(s, c) + 1
    ensures forall i :: 0 <= i < |r| ==> c !in r[i]
  {
    if s == [] then [""]
    else
      var rest := Split(s[1..], c);
      if s[0] == c then [""] + rest
      else [[s[0]] + rest[0]] + rest[1..]
  }

  /** A string without the separator splits into itself. */
  lemma {:induction false} SplitAbsent(s: string, c: char)
    requires c !in s
    ensures Split(s, c) == [s]
  {
    if s != [] {
      SplitAbsent(s[1..], c);
      assert [s[0]] + s[1..] == s;
    }
  }

  /** Splitting distributes over a separator: the text before it and the text
      after it split independently. */
  lemma {:induction false} SplitAround(a: string, b: string, c: char)
    ensures Split(a + [c] + b, c) == Split(a, c) + Split(b, c)
  {
    if a == [] {
      assert a + [c] + b == [c] + b;
      assert ([c] + b)[1..] == b;
    } else {
      assert (a + [c] + b)[1..] == a[1..] + [c] + b;
      SplitAround(a[1..], b, c);
    }
  }

  /** The first piece of a split is the text before the first separator. */
  lemma SplitFirst(line: string, rest: string, c: char)
    requires c !in line
    ensures Split(line + [c] + rest, c) == [line] + Split(rest, c)
  {
    SplitAround(line, rest, c);
    SplitAbsent(line, c);
  }

  /** A final separator adds one empty piece. */
  lemma SplitLast(s: string, c: char)
    ensures Split(s + [c], c) == Split(s, c) + [""]
  {
    SplitAround(s, "", c);
    assert s + [c] + "" == s + [c];
  }

  lemma TwoLinesRegrouped(a: string, b: string, rest: string, c: char)
    ensures a + [c] + b + [c] + rest + [c] == a + [c] + (b + [c] + (rest + [c]))
  {
  }

  lemma PiecesRegrouped(a: string, b: string, pieces: seq<string>)
    ensures [a] + ([b] + (pieces + [""])) == [a, b] + pieces + [""]
  {
  }

  /** Pieces of two separator-free lines followed by a terminated rest. */
  lemma SplitTwoLines(a: string, b: string, rest: string, c: char)
    requires c !in a && c !in b
    ensures Split(a + [c] + b + [c] + rest + [c], c) == [a, b] + Split(rest, c) + [""]
  {
    var tail := rest + [c];
    TwoLinesRegrouped(a, b, rest, c);
    SplitFirst(a, b + [c] + tail, c);
    SplitFirst(b, tail, c);
    SplitLast(rest, c);
    PiecesRegrouped(a, b, Split(rest, c));
  }

  /** Joining the pieces of a split with the separator gives back the string. */
  lemma {:induction false} JoinSplit(s: string, c: char)
    ensures Join(Split(s, c), [c]) == s
  {
    if s != [] {
      var rest := Split(s[1..], c);
      JoinSplit(s[1..], c);
      if s[0] == c {
        JoinEmptyFirst(rest, [c]);
      } else {
        JoinGrowFirst(s[0], rest, [c]);
      }
      assert s == [s[0]] + s[1..];
    }
  }

  /** A join behind an empty first part starts with the separator. */
  lemma JoinEmptyFirst(parts: seq<string>, sep: string)
    requires |parts| >= 1
    ensures Join([""] + parts, sep) == sep + Join(parts, sep)
  {
    assert ([""] + parts)[1..] == parts;
  }

  /** A character put in front of the first part comes first in the join. */
  lemma JoinGrowFirst(x: char, parts: seq<string>, sep: string)
    requires |parts| >= 1
    ensures Join([[x] + parts[0]] + parts[1..], sep) == [x] + Join(parts, sep)
  {
    var r := [[x] + parts[0]] + parts[1..];
    if |parts| > 1 {
      var tail := Join(parts[1..], sep);
      assert r[1..] == parts[1..];
      assert Join(r, sep) == ([x] + parts[0]) + sep + tail;
      assert Join(parts, sep) == parts[0] + sep + tail;
    }
  }

  /** Splitting a join gives back the parts, when no part holds the separator. */
  lemma {:induction false} SplitJoin(parts: seq<string>, c: char)
    requires |parts| >= 1
    requires forall i :: 0 <= i < |parts| ==> c !in parts[i]
    ensures Split(Join(parts, [c]), c) == parts
  {
    SplitAbsent(parts[0], c);
    if |parts| > 1 {
      SplitJoin(parts[1..], c);
      SplitAround(parts[0], Join(parts[1..], [c]), c);
      assert [parts[0]] + parts[1..] == parts;
    }
  }

  /** The whitespace `String.prototype.trim` removes: ECMAScript's WhiteSpace
      (tab, vertical tab, form feed, space, no-break space, byte order mark and
      the space separators of Unicode) and LineTerminator characters. */
  predicate IsWhitespace(ch: char)
  {
    var n := ch as int;
    n == 0x09 || n == 0x0A || n == 0x0B || n == 0x0C || n == 0x0D || n == 0x20 ||
    n == 0xA0 || n == 0x1680 || (0x2000 <= n <= 0x200A) || n == 0x2028 ||
    n == 0x2029 || n == 0x202F || n == 0x205F || n == 0x3000 || n == 0xFEFF
  }

  /** No whitespace at either end. */
  predicate IsTrimmed(s: string)
  {
    s == [] || (!IsWhitespace(s[0]) && !IsWhitespace(s[|s| - 1]))
  }

  /** How many whitespace characters `s` starts with. */
  function LeadingBlanks(s: string): (n: nat)
    ensures n <= |s|
  {
    if s != [] && IsWhitespace(s[0]) then 1 + LeadingBlanks(s[1..]) else 0
  }

  /** How many whitespace characters `s` ends with. */
  function TrailingBlanks(s: string): (n: nat)
    ensures n <= |s|
  {
    if s != [] && IsWhitespace(s[|s| - 1]) then 1 + TrailingBlanks(s[..|s| - 1]) else 0
  }

  /** The leading whitespace is whitespace, and is followed by a character that
      is not, if any. */
  lemma {:induction false} LeadingBlanksSpec(s: string)
    ensures forall i :: 0 <= i < LeadingBlanks(s) ==> IsWhitespace(s[i])
    ensures LeadingBlanks(s) < |s| ==> !IsWhitespace(s[LeadingBlanks(s)])
  {
    if s != [] && IsWhitespace(s[0]) {
      LeadingBlanksSpec(s[1..]);
    }
  }

  /** The trailing whitespace is whitespace, and is preceded by a character
      that is not, if any. */
  lemma {:induction false} TrailingBlanksSpec(s: string)
    ensures forall i :: |s| - TrailingBlanks(s) <= i < |s| ==> IsWhitespace(s[i])
    ensures TrailingBlanks(s) < |s| ==> !IsWhitespace(s[|s| - 1 - TrailingBlanks(s)])
  {
    if s != [] && IsWhitespace(s[|s| - 1]) {
      TrailingBlanksSpec(s[..|s| - 1]);
    }
  }

  /** `s.trim()`: `s` without its leading and trailing whitespace. */
  function Trim(s: string): (r: string)
    ensures IsTrimmed(r)
    ensures |r| <= |s|
  {
    LeadingBlanksSpec(s);
    TrailingBlanksSpec(s);
    var i, j := LeadingBlanks(s), |s| - TrailingBlanks(s);
    if j <= i then "" else s[i..j]
  }

  /** What trimming leaves is the infix `s[i..j]` of the input, and all it
      removes before `i` and after `j` is whitespace. */
  lemma TrimInfix(s: string)
    ensures exists i, j ::
              && 0 <= i <= j <= |s| && Trim(s) == s[i..j]
              && (forall k :: 0 <= k < i ==> IsWhitespace(s[k]))
              && (forall k :: j <= k < |s| ==> IsWhitespace(s[k]))
  {
    LeadingBlanksSpec(s);
    TrailingBlanksSpec(s);
    var i, j := LeadingBlanks(s), |s| - TrailingBlanks(s);
    if j <= i {
      assert Trim(s) == s[i..i];
    } else {
      assert Trim(s) == s[i..j];
    }
  }

  /** Trimming leaves a trimmed string as it is. */
  lemma TrimTrimmed(s: string)
    requires IsTrimmed(s)
    ensures Trim(s) == s
  {
    if s != [] {
      assert LeadingBlanks(s) == 0 && TrailingBlanks(s) == 0;
      assert s[0..|s|] == s;
    }
  }

  /** Trimming a whitespace-only string gives the empty string. */
  lemma TrimBlank(s: string)
    requires forall i :: 0 <= i < |s| ==> IsWhitespace(s[i])
    ensures Trim(s) == ""
  {
    LeadingBlanksSpec(s);
  }

  /** A trimmed string behind one space trims back to itself. */
  lemma TrimSpaced(s: string)
    requires IsTrimmed(s)
    ensures Trim(" " + s) == s
  {
    var u := " " + s;
    if s == [] {
      TrimBlank(u);
    } else {
      assert u[1..] == s;
      assert LeadingBlanks(s) == 0;
      assert LeadingBlanks(u) == 1;
      assert TrailingBlanks(u) == 0;
    }
  }

  /** Trimming keeps out any character the input does not hold. */
  lemma TrimAbsent(s: string, c: char)
    requires c !in s
    ensures c !in Trim(s)
  {
    TrimInfix(s);
    var i, j :| 0 <= i <= j <= |s| && Trim(s) == s[i..j];
  }
}
