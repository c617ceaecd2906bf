/**
 * Sequence and string helpers with the semantics of the ECMAScript string methods the hooks
 * use: `trim`, `split` on one separator, `join`, `startsWith`, `endsWith`, `includes`,
 * `indexOf`, `replace` of the first match, `padStart`, `slice`, and decimal printing and
 * `parseInt(_, 10)`.
 */
module Strings {
  import opened Common

  /** The white space of `String.prototype.trim` and of the regular-expression class `\s`. */
  predicate IsSpaceCode(c: int)
  {
    c == 0x09 || c == 0x0A || c == 0x0B || c == 0x0C || c == 0x0D || c == 0x20 || c == 0xA0
    || c == 0x1680 || (0x2000 <= c <= 0x200A) || c == 0x2028 || c == 0x2029 || c == 0x202F
    || c == 0x205F || c == 0x3000 || c == 0xFEFF
  }

  predicate IsSpace(c: char)
  {
    IsSpaceCode(c as int)
  }

  // ---------------------------------------------------------------- trimming

  function TrimStartBy<T>(s: seq<T>, space: T -> bool): (r: seq<T>)
    ensures |r| <= |s| && r == s[|s| - |r|..]
    ensures r == [] || !space(r[0])
    ensures forall i :: 0 <= i < |s| - |r| ==> space(s[i])
  {
    if s != [] && space(s[0]) then TrimStartBy(s[1..], space) else s
  }

  function TrimEndBy<T>(s: seq<T>, space: T -> bool): (r: seq<T>)
    ensures |r| <= |s| && r == s[..|r|]
    ensures r == [] || !space(r[|r| - 1])
    ensures forall i :: |r| <= i < |s| ==> space(s[i])
  {
    if s != [] && space(s[|s| - 1]) then TrimEndBy(s[..|s| - 1], space) else s
  }

  /** `s.trimStart()`. */
  function TrimStart(s: string): (r: string)
    ensures |r| <= |s| && r == s[|s| - |r|..]
    ensures r == [] || !IsSpace(r[0])
    ensures forall i :: 0 <= i < |s| - |r| ==> IsSpace(s[i])
  {
    if s != [] && IsSpace(s[0]) then TrimStart(s[1..]) else s
  }

  /** `s.trimEnd()`. */
  function TrimEnd(s: string): (r: string)
    ensures |r| <= |s| && r == s[..|r|]
    ensures r == [] || !IsSpace(r[|r| - 1])
    ensures forall i :: |r| <= i < |s| ==> IsSpace(s[i])
  {
    if s != [] && IsSpace(s[|s| - 1]) then TrimEnd(s[..|s| - 1]) else s
  }

  /** `s.trim()`: the text between the leading and the trailing white space. */
  function Trim(s: string): (r: string)
    ensures Contains(s, r)
    ensures r == [] || (!IsSpace(r[0]) && !IsSpace(r[|r| - 1]))
    ensures r == [] <==> forall i :: 0 <= i < |s| ==> IsSpace(s[i])
  {
    TrimInside(s);
    TrimEdges(s);
    TrimBlank(s);
    TrimEnd(TrimStart(s))
  }

  /** Trimming leaves a piece of the text, found where the leading white space ends. */
  lemma TrimInside(s: string)
    ensures Contains(s, TrimEnd(TrimStart(s)))
  {
    var a := TrimStart(s);
    var r := TrimEnd(a);
    var k := |s| - |a|;
    SliceOfDrop(s, k, |r|);
    assert OccursAt(s, r, k);
  }

  /** A slice is a prefix of the suffix it starts. */
  lemma SliceOfDrop<T>(s: seq<T>, k: nat, n: nat)
    requires k + n <= |s|
    ensures s[k..k + n] == s[k..][..n]
  {
  }

  /** What trimming leaves starts and ends with a character that is not white space. */
  lemma TrimEdges(s: string)
    ensures var r := TrimEnd(TrimStart(s)); r == [] || (!IsSpace(r[0]) && !IsSpace(r[|r| - 1]))
  {
    var a := TrimStart(s);
    var r := TrimEnd(a);
    assert r != [] ==> r[0] == a[0];
  }

  /** Trimming leaves nothing exactly when the text is all white space. */
  lemma TrimBlank(s: string)
    ensures TrimEnd(TrimStart(s)) == [] <==> forall i :: 0 <= i < |s| ==> IsSpace(s[i])
  {
    var a := TrimStart(s);
    assert a != [] ==> !IsSpace(a[0]);
  }

  // ---------------------------------------------------------------- searching

  /** Concatenation is associative. */
  lemma AppendAssoc<T>(a: seq<T>, b: seq<T>, c: seq<T>)
    ensures a + (b + c) == (a + b) + c
  {
  }

  /** The two parts of a concatenation, and the first element of the second. */
  lemma AppendParts<T>(a: seq<T>, b: seq<T>)
    ensures (a + b)[..|a|] == a && (a + b)[|a|..] == b
    ensures b != [] ==> (a + b)[|a|] == b[0]
  {
  }

  /** `s.endsWith(suffix)`. */
  predicate EndsWith<T(==)>(s: seq<T>, suffix: seq<T>)
  {
    |suffix| <= |s| && s[|s| - |suffix|..] == suffix
  }

  /** Taking one more element of `b` after `a`. */
  lemma TakeStep<T>(a: seq<T>, b: seq<T>, j: nat)
    requires j < |b|
    ensures a + b[..j + 1] == (a + b[..j]) + [b[j]]
    ensures a + b[..0] == a && a + b[..|b|] == a + b
  {
    assert b[..j + 1] == b[..j] + [b[j]];
  }

  /** The parts of a sequence with one more element at the end. */
  lemma Snoc<T>(xs: seq<T>, x: T)
    ensures (xs + [x])[..|xs|] == xs && (xs + [x])[|xs|] == x
  {
  }

  /** The prefix as long as the sequence is the sequence. */
  lemma Whole<T>(s: seq<T>)
    ensures s[..|s|] == s
  {
  }

  /** A prefix grows by one element. */
  lemma PrefixStep<T>(s: seq<T>, j: nat)
    requires j < |s|
    ensures s[..j + 1] == s[..j] + [s[j]]
    ensures s[..|s|] == s
  {
  }

  /** A slice grows by one element. */
  lemma SliceStep<T>(s: seq<T>, a: nat, k: nat)
    requires a <= k < |s|
    ensures s[a..k + 1] == s[a..k] + [s[k]]
    ensures s[a..|s|] == s[a..]
  {
  }

  /** A suffix splits into the suffix of all but the last element, and that element. */
  lemma DropLast<T>(s: seq<T>, a: nat)
    requires a < |s|
    ensures s[a..] == s[..|s| - 1][a..] + [s[|s| - 1]]
    ensures s[a..][..|s| - 1 - a] == s[..|s| - 1][a..]
  {
  }

  /** A concatenation starts with its first part. */
  lemma PrefixOfAppend<T>(a: seq<T>, b: seq<T>, c: seq<T>)
    ensures a <= a + b + c
  {
    assert (a + b + c)[..|a|] == a;
  }

  /** A concatenation ends with its second part. */
  lemma EndsWithTail<T>(a: seq<T>, b: seq<T>)
    ensures EndsWith(a + b, b)
  {
    assert (a + b)[|a|..] == b;
  }

  /** `p` occurs in `s` at index `i`. */
  predicate OccursAt<T(==)>(s: seq<T>, p: seq<T>, i: int)
  {
    0 <= i && i + |p| <= |s| && s[i..i + |p|] == p
  }

  /** Dropping the first element moves every occurrence one place to the left. */
  lemma OccursShift<T>(s: seq<T>, p: seq<T>, j: nat)
    requires s != []
    ensures OccursAt(s[1..], p, j) <==> OccursAt(s, p, j + 1)
  {
    if j + 1 + |p| <= |s| {
      assert s[1..][j..j + |p|] == s[j + 1..j + 1 + |p|];
    }
  }

  /** An occurrence of `p + q` is an occurrence of `p`. */
  lemma OccursPrefix<T>(s: seq<T>, p: seq<T>, q: seq<T>, j: int)
    requires OccursAt(s, p + q, j)
    ensures OccursAt(s, p, j)
  {
    assert s[j..j + |p|] == (p + q)[..|p|];
  }

  /** Two sequences that agree on their first `n` elements have the same occurrences within them. */
  lemma OccursWithinPrefix<T>(s: seq<T>, t: seq<T>, p: seq<T>, j: int, n: nat)
    requires n <= |s| && n <= |t| && s[..n] == t[..n] && 0 <= j && j + |p| <= n
    ensures OccursAt(s, p, j) <==> OccursAt(t, p, j)
  {
    assert s[j..j + |p|] == s[..n][j..j + |p|];
    assert t[j..j + |p|] == t[..n][j..j + |p|];
  }

  /** No occurrence of `p` can cover an element that `p` does not contain. */
  lemma Barrier<T>(x: seq<T>, c: T, y: seq<T>, p: seq<T>)
    requires c !in p && !Contains(x, p) && !Contains(y, p)
    ensures !Contains(x + [c] + y, p)
  {
    var s := x + [c] + y;
    forall j | 0 <= j <= |s| - |p| ensures !OccursAt(s, p, j) {
      if j + |p| <= |x| {
        assert s[j..j + |p|] == x[j..j + |p|];
        assert !OccursAt(x, p, j);
      } else if j <= |x| {
        assert s[j..j + |p|][|x| - j] == c;
      } else {
        assert s[j..j + |p|] == y[j - |x| - 1..j - |x| - 1 + |p|];
        assert !OccursAt(y, p, j - |x| - 1);
      }
    }
  }

  /** An occurrence has to start with the first element of `p`. */
  lemma LeadWithout<T>(lead: seq<T>, v: seq<T>, p: seq<T>)
    requires p != [] && p[0] !in lead && !Contains(v, p)
    ensures !Contains(lead + v, p)
  {
    var s := lead + v;
    forall j | 0 <= j <= |s| - |p| ensures !OccursAt(s, p, j) {
      if j < |lead| {
        assert s[j..j + |p|][0] == lead[j];
      } else {
        assert s[j..j + |p|] == v[j - |lead|..j - |lead| + |p|];
        assert !OccursAt(v, p, j - |lead|);
      }
    }
  }

  /** `s.includes(p)`. */
  predicate Contains<T(==)>(s: seq<T>, p: seq<T>)
  {
    exists i | 0 <= i <= |s| - |p| :: OccursAt(s, p, i)
  }

  /** An occurrence in a suffix is an occurrence in the whole. */
  lemma ContainsAfter<T>(a: seq<T>, b: seq<T>, p: seq<T>)
    requires Contains(b, p)
    ensures Contains(a + b, p)
  {
    var j :| 0 <= j <= |b| - |p| && OccursAt(b, p, j);
    assert (a + b)[|a| + j..|a| + j + |p|] == b[j..j + |p|];
    assert OccursAt(a + b, p, |a| + j);
  }

  /** An occurrence in a prefix is an occurrence in the whole. */
  lemma ContainsBefore<T>(a: seq<T>, b: seq<T>, p: seq<T>)
    requires Contains(a, p)
    ensures Contains(a + b, p)
  {
    var j :| 0 <= j <= |a| - |p| && OccursAt(a, p, j);
    assert (a + b)[j..j + |p|] == a[j..j + |p|];
    assert OccursAt(a + b, p, j);
  }

  /** `s.indexOf(p)`, with `None` for -1. */
  function IndexOf<T(==)>(s: seq<T>, p: seq<T>): (r: Option<nat>)
    ensures r.Some? ==> OccursAt(s, p, r.value)
    ensures r.Some? ==> forall j :: 0 <= j < r.value ==> !OccursAt(s, p, j)
    ensures r.None? <==> !Contains(s, p)
    decreases |s|
  {
    if p <= s then
      assert OccursAt(s, p, 0);
      Some(0)
    else if s == [] then
      None
    else
      match IndexOf(s[1..], p)
      case None =>
        assert forall j :: 1 <= j <= |s| - |p| ==> !OccursAt(s, p, j) by {
          forall j | 1 <= j <= |s| - |p| ensures !OccursAt(s, p, j) { OccursShift(s, p, j - 1); }
        }
        None
      case Some(k) =>
        OccursShift(s, p, k);
        assert forall j :: 1 <= j <= k ==> !OccursAt(s, p, j) by {
          forall j | 1 <= j <= k ensures !OccursAt(s, p, j) { OccursShift(s, p, j - 1); }
        }
        Some(k + 1)
  }

  /** `s.replace(p, r)` for a literal pattern: only the first occurrence is replaced. */
  function ReplaceFirst<T(==)>(s: seq<T>, p: seq<T>, r: seq<T>): (t: seq<T>)
    ensures !Contains(s, p) ==> t == s
    ensures Contains(s, p) ==> exists i :: OccursAt(s, p, i) && t == s[..i] + r + s[i + |p|..]
  {
    match IndexOf(s, p)
    case None => s
    case Some(i) => s[..i] + r + s[i + |p|..]
  }

  /** The index of the first `x` in `s`. */
  function FirstIndex<T(==)>(s: seq<T>, x: T): (i: nat)
    requires x in s
    ensures i < |s| && s[i] == x && x !in s[..i]
  {
    if s[0] == x then 0 else 1 + FirstIndex(s[1..], x)
  }

  // ---------------------------------------------------------------- split and join

  /** `s.split(sep)` for a one-element separator. */
  function Split<T(==)>(s: seq<T>, sep: T): (parts: seq<seq<T>>)
    ensures |parts| >= 1
    ensures forall i :: 0 <= i < |parts| ==> sep !in parts[i]
    decreases |s|
  {
    if sep in s then
      var i := FirstIndex(s, sep);
      [s[..i]] + Split(s[i + 1..], sep)
    else
      [s]
  }

  /** `parts.join(sep)`. */
  function Join<T>(parts: seq<seq<T>>, sep: seq<T>): seq<T>
  {
    if |parts| == 0 then []
    else if |parts| == 1 then parts[0]
    else parts[0] + sep + Join(parts[1..], sep)
  }

  /** Splitting at the first separator gives the part before it, then the split of the rest. */
  lemma SplitCons<T>(x: seq<T>, sep: T, rest: seq<T>)
    requires sep !in x
    ensures Split(x + [sep] + rest, sep) == [x] + Split(rest, sep)
  {
    var s := x + [sep] + rest;
    assert s[|x|] == sep;
    assert s[..|x|] == x;
    var i := FirstIndex(s, sep);
    assert i == |x|;
    assert s[..i] == x;
    assert s[i + 1..] == rest;
  }

  /** Joining from position `k` puts the element at `k` in front of the rest. */
  lemma JoinFrom<T>(parts: seq<seq<T>>, k: nat, sep: seq<T>)
    requires k + 1 < |parts|
    ensures Join(parts[k..], sep) == parts[k] + sep + Join(parts[k + 1..], sep)
  {
    assert parts[k..][1..] == parts[k + 1..];
  }

  /** Joining two non-empty lists of parts puts one separator between them. */
  lemma {:induction false} JoinAppend<T>(a: seq<seq<T>>, b: seq<seq<T>>, sep: seq<T>)
    requires |a| >= 1 && |b| >= 1
    ensures Join(a + b, sep) == Join(a, sep) + sep + Join(b, sep)
  {
    if |a| > 1 {
      JoinAppend(a[1..], b, sep);
      assert (a + b)[1..] == a[1..] + b;
    } else {
      assert (a + b)[1..] == b;
    }
  }

  /** The number of elements equal to `x`. */
  function Count<T(==)>(s: seq<T>, x: T): nat
  {
    multiset(s)[x]
  }

  /** Joining what `split` returned restores the text. */
  lemma {:induction false} JoinSplit<T>(s: seq<T>, sep: T)
    ensures Join(Split(s, sep), [sep]) == s
    decreases |s|
  {
    if sep in s {
      var i := FirstIndex(s, sep);
      var rest := Split(s[i + 1..], sep);
      assert Split(s, sep) == [s[..i]] + rest;
      JoinCons(s[..i], rest, [sep]);
      JoinSplit(s[i + 1..], sep);
      assert s == s[..i] + [sep] + s[i + 1..];
    }
  }

  /** Joining a part in front of at least one more puts a separator after it. */
  lemma JoinCons<T>(a: seq<T>, parts: seq<seq<T>>, sep: seq<T>)
    requires |parts| >= 1
    ensures Join([a] + parts, sep) == a + sep + Join(parts, sep)
  {
    assert ([a] + parts)[1..] == parts;
  }

  /** A join starts with its first part. */
  lemma JoinStarts<T>(parts: seq<seq<T>>, sep: seq<T>)
    requires parts != []
    ensures parts[0] <= Join(parts, sep)
  {
  }

  /** Splitting a join of separator-free parts gives the parts back. */
  lemma {:induction false} SplitJoin<T>(parts: seq<seq<T>>, sep: T)
    requires |parts| >= 1
    requires forall i :: 0 <= i < |parts| ==> sep !in parts[i]
    ensures Split(Join(parts, [sep]), sep) == parts
  {
    if |parts| > 1 {
      SplitJoin(parts[1..], sep);
      assert Join(parts, [sep]) == parts[0] + [sep] + Join(parts[1..], [sep]);
      SplitCons(parts[0], sep, Join(parts[1..], [sep]));
      assert [parts[0]] + parts[1..] == parts;
    } else {
      assert sep !in parts[0];
    }
  }

  /** `split` yields one more part than there are separators. */
  lemma {:induction false} SplitCount<T>(s: seq<T>, sep: T)
    ensures |Split(s, sep)| == Count(s, sep) + 1
    decreases |s|
  {
    if sep in s {
      var i := FirstIndex(s, sep);
      SplitCount(s[i + 1..], sep);
      assert s == s[..i] + [sep] + s[i + 1..];
      assert multiset(s) == multiset(s[..i]) + multiset{sep} + multiset(s[i + 1..]);
      assert multiset(s[..i])[sep] == 0;
    } else {
      assert multiset(s)[sep] == 0;
    }
  }

  /** The number of `\n`-separated lines: one more than the number of line breaks. */
  function LineCount(s: string): nat
    decreases |s|
  {
    if s == [] then 1 else (if s[0] == '\n' then 1 else 0) + LineCount(s[1..])
  }

  /** The line count is what `text.split('\n').length` gives. */
  lemma LineCountSplit(s: string)
    ensures LineCount(s) == |Split(s, '\n')|
  {
    LineCountBreaks(s);
    SplitCount(s, '\n');
  }

  lemma {:induction false} LineCountBreaks(s: string)
    ensures LineCount(s) == Count(s, '\n') + 1
    decreases |s|
  {
    if s != [] {
      LineCountBreaks(s[1..]);
      assert s == [s[0]] + s[1..];
      assert multiset(s) == multiset{s[0]} + multiset(s[1..]);
    }
  }

  /** Concatenating two texts merges the last line of the first with the first of the second. */
  lemma {:induction false} LineCountAppend(a: string, b: string)
    ensures LineCount(a + b) == LineCount(a) + LineCount(b) - 1
    decreases |a|
  {
    if a == [] {
      assert a + b == b;
    } else {
      LineCountAppend(a[1..], b);
      assert (a + b)[1..] == a[1..] + b;
    }
  }

  // ---------------------------------------------------------------- slicing and padding

  /** `xs.slice(0, n)`. */
  function Take<T>(xs: seq<T>, n: nat): (r: seq<T>)
    ensures |r| == if n < |xs| then n else |xs|
    ensures r <= xs
  {
    if n < |xs| then xs[..n] else xs
  }

  /** `xs.slice(-n)` for `n > 0`: the last `n` elements, or all of them. */
  function LastN<T>(xs: seq<T>, n: nat): (r: seq<T>)
    ensures |r| == if n < |xs| then n else |xs|
    ensures r == xs[|xs| - |r|..]
  {
    if n < |xs| then xs[|xs| - n..] else xs
  }

  function Repeat<T>(x: T, n: nat): (r: seq<T>)
    ensures |r| == n && forall i :: 0 <= i < n ==> r[i] == x
  {
    if n == 0 then [] else [x] + Repeat(x, n - 1)
  }

  /** `s.padStart(n, c)`. */
  function PadStart(s: string, n: nat, c: char): (r: string)
    ensures |r| == if |s| < n then n else |s|
    ensures EndsWith(r, s)
    ensures forall i :: 0 <= i < |r| - |s| ==> r[i] == c
  {
    if |s| < n then Repeat(c, n - |s|) + s else s
  }

  // ---------------------------------------------------------------- case

  function LowerChar(c: char): char
  {
    if 'A' <= c <= 'Z' then (c as int + 32) as char else c
  }

  /** `s.toLowerCase()` restricted to the ASCII letters. */
  function ToLower(s: string): (r: string)
    ensures |r| == |s| && forall i :: 0 <= i < |s| ==> r[i] == LowerChar(s[i])
  {
    seq(|s|, i requires 0 <= i < |s| => LowerChar(s[i]))
  }

  // ---------------------------------------------------------------- decimal numbers

  predicate IsDigit(c: char)
  {
    '0' <= c <= '9'
  }

  predicate AllDigits(s: string)
  {
    forall i :: 0 <= i < |s| ==> IsDigit(s[i])
  }

  function DigitChar(d: nat): (c: char)
    requires d < 10
    ensures IsDigit(c) && c as int - '0' as int == d
  {
    (d + '0' as int) as char
  }

  /** The number a string of decimal digits denotes. */
  function DigitsValue(s: string): nat
    requires AllDigits(s)
  {
    if s == [] then 0 else 10 * DigitsValue(s[..|s| - 1]) + (s[|s| - 1] as int - '0' as int)
  }

  /** `String(n)` for a non-negative integer: its digits, with no leading zero. */
  function NatToString(n: nat): (s: string)
    ensures |s| >= 1 && AllDigits(s)
    ensures DigitsValue(s) == n
    ensures s[0] == '0' ==> n == 0
  {
    if n < 10 then [DigitChar(n)]
    else
      var s := NatToString(n / 10) + [DigitChar(n % 10)];
      assert s[..|s| - 1] == NatToString(n / 10);
      s
  }

  /** `String(i)` for an integer. */
  function IntToString(i: int): (s: string)
    ensures s != [] && forall k :: 0 <= k < |s| ==> s[k] == '-' || IsDigit(s[k])
  {
    if i < 0 then "-" + NatToString(-i) else NatToString(i)
  }

  function Pow10(k: nat): (p: nat)
    ensures p >= 1
  {
    if k == 0 then 1 else 10 * Pow10(k - 1)
  }

  /** A number below `10^k` prints with at most `k` digits. */
  lemma {:induction false} NatToStringLength(n: nat, k: nat)
    requires 1 <= k && n < Pow10(k)
    ensures |NatToString(n)| <= k
  {
    if n >= 10 {
      assert k >= 2;
      assert n / 10 < Pow10(k - 1);
      NatToStringLength(n / 10, k - 1);
    }
  }

  lemma {:induction false} ZerosValue(m: nat)
    ensures AllDigits(Repeat('0', m)) && DigitsValue(Repeat('0', m)) == 0
  {
    if m > 0 {
      assert Repeat('0', m)[..m - 1] == Repeat('0', m - 1);
      ZerosValue(m - 1);
    }
  }

  /** Padding a run of digits with leading zeros keeps the number it denotes. */
  lemma {:induction false} PadStartValue(s: string, n: nat)
    requires AllDigits(s)
    ensures AllDigits(PadStart(s, n, '0')) && DigitsValue(PadStart(s, n, '0')) == DigitsValue(s)
    decreases |s|
  {
    if |s| < n {
      LeadingZeros(n - |s|, s);
    }
  }

  lemma {:induction false} LeadingZeros(m: nat, s: string)
    requires AllDigits(s)
    ensures AllDigits(Repeat('0', m) + s) && DigitsValue(Repeat('0', m) + s) == DigitsValue(s)
    decreases |s|
  {
    var t := Repeat('0', m) + s;
    if s == [] {
      assert t == Repeat('0', m);
      ZerosValue(m);
    } else {
      assert t[..|t| - 1] == Repeat('0', m) + s[..|s| - 1];
      LeadingZeros(m, s[..|s| - 1]);
    }
  }

  /** The longest prefix of `s` made of digits. */
  function DigitPrefix(s: string): (d: string)
    ensures d <= s && AllDigits(d)
    ensures |d| < |s| ==> !IsDigit(s[|d|])
  {
    if s != [] && IsDigit(s[0]) then [s[0]] + DigitPrefix(s[1..]) else []
  }

  /**
   * `parseInt(s, 10)`: leading white space is skipped, one sign is read, then the longest run
   * of digits; `None` stands for NaN (no digit at all).
   */
  function ParseInt(s: string): (r: Option<int>)
    ensures r.Some? ==> s != []
  {
    var t := TrimStart(s);
    var negative := t != [] && t[0] == '-';
    var u := if t != [] && (t[0] == '-' || t[0] == '+') then t[1..] else t;
    var ds := DigitPrefix(u);
    if ds == [] then None
    else
      var v: int := DigitsValue(ds);
      Some(if negative then -v else v)
  }

  lemma DigitPrefixOfDigits(s: string)
    requires AllDigits(s)
    ensures DigitPrefix(s) == s
  {
  }

  /** Printing an integer and reading it back with `parseInt` gives the integer. */
  lemma ParseIntToString(i: int)
    ensures ParseInt(IntToString(i)) == Some(i)
  {
    if i < 0 {
      ParseNegative(NatToString(-i));
    } else {
      ParseDigits(NatToString(i));
    }
  }

  lemma ParseDigits(ds: string)
    requires ds != [] && AllDigits(ds)
    ensures ParseInt(ds) == Some(DigitsValue(ds))
  {
    assert IsDigit(ds[0]);
    TrimStartKeeps(ds);
    DigitPrefixOfDigits(ds);
  }

  lemma ParseNegative(ds: string)
    requires ds != [] && AllDigits(ds)
    ensures ParseInt("-" + ds) == Some(-(DigitsValue(ds) as int))
  {
    var s := "-" + ds;
    assert s[0] == '-' && s[1..] == ds;
    TrimStartKeeps(s);
    DigitPrefixOfDigits(ds);
    assert DigitPrefix(TrimStart(s)[1..]) == ds;
  }

  lemma TrimStartKeeps(s: string)
    requires s != [] && !IsSpace(s[0])
    ensures TrimStart(s) == s
  {
  }

  /** Trimming a text whose first `n` characters begin and end without white space keeps them. */
  lemma TrimKeepsPrefix(p: string, s: string, n: nat)
    requires 0 < n <= |p| && !IsSpace(p[0]) && !IsSpace(p[n - 1])
    ensures n <= |Trim(p + s)| && Trim(p + s)[..n] == p[..n]
  {
    var t := p + s;
    assert t[0] == p[0] && t[n - 1] == p[n - 1];
    assert TrimStart(t) == t;
    var r := TrimEnd(t);
    assert !IsSpace(t[n - 1]);
    assert n <= |r|;
    assert r[..n] == t[..n];
  }

}
