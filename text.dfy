/** The JavaScript string operations the components rely on: `trim`,
    `toUpperCase`, `startsWith`/`endsWith`, `split` on one character, `join`
    and number-to-string conversion. */
module Text {

  /** The code points `String.prototype.trim` removes: ECMAScript WhiteSpace
      (TAB, VT, FF, SP, NBSP, ZWNBSP and the Space_Separator category) and
      LineTerminator (LF, CR, LS, PS). */
  predicate IsTrimmable(c: char)
  {
    || c == '\t' || c == '\U{000B}' || c == '\U{000C}' || c == ' '
    || c == '\U{00A0}' || c == '\U{FEFF}' || c == '\U{1680}'
    || ('\U{2000}' <= c <= '\U{200A}')
    || c == '\U{202F}' || c == '\U{205F}' || c == '\U{3000}'
    || c == '\n' || c == '\r' || c == '\U{2028}' || c == '\U{2029}'
  }

  /** Number of trimmable characters at the start of `s`. */
  function LeadingTrimmable(s: string): (k: nat)
    ensures k <= |s|
    ensures forall i :: 0 <= i < k ==> IsTrimmable(s[i])
    ensures k < |s| ==> !IsTrimmable(s[k])
  {
    if |s| == 0 || !IsTrimmable(s[0]) then 0 else 1 + LeadingTrimmable(s[1..])
  }

  /** Number of trimmable characters at the end of `s`. */
  function TrailingTrimmable(s: string): (k: nat)
    ensures k <= |s|
    ensures forall i :: |s| - k <= i < |s| ==> IsTrimmable(s[i])
    ensures k < |s| ==> !IsTrimmable(s[|s| - 1 - k])
  {
    if |s| == 0 || !IsTrimmable(s[|s| - 1]) then 0
    else 1 + TrailingTrimmable(s[..|s| - 1])
  }

  /** `s.trim()`: the infix of `s` left once every leading and trailing
      trimmable character is removed. */
  function Trim(s: string): (r: string)
    ensures LeadingTrimmable(s) == |s| ==> r == []
    ensures LeadingTrimmable(s) < |s| ==>
              LeadingTrimmable(s) + TrailingTrimmable(s) < |s|
              && r == s[LeadingTrimmable(s)..|s| - TrailingTrimmable(s)]
    ensures r != [] ==> !IsTrimmable(r[0]) && !IsTrimmable(r[|r| - 1])
    ensures r == [] <==> forall i :: 0 <= i < |s| ==> IsTrimmable(s[i])
  {
    var a := LeadingTrimmable(s);
    if a == |s| then [] else s[a..|s| - TrailingTrimmable(s)]
  }

  /** `!s.trim()`: the string is empty once trimmed. */
  predicate IsBlank(s: string)
  {
    Trim(s) == []
  }

  /** Trimming a second time changes nothing. */
  lemma TrimIdempotent(s: string)
    ensures Trim(Trim(s)) == Trim(s)
  {
    var r := Trim(s);
    if r != [] {
      assert LeadingTrimmable(r) == 0;
      assert TrailingTrimmable(r) == 0;
    }
  }

  /** `c.toUpperCase()` for the characters this model covers: ASCII and
      Latin-1 lower-case letters, including the micro sign (upper-cased to
      Greek capital mu) but without `ß`, whose upper case is two characters;
      every other character is its own upper case. */
  function UpperChar(c: char): (u: char)
    ensures 'a' <= c <= 'z' ==> u as int == c as int - 32
    ensures !IsLowerLetter(c) ==> u == c
  {
    if 'a' <= c <= 'z' then (c as int - 32) as char
    else if '\U{00E0}' <= c <= '\U{00FE}' && c != '\U{00F7}' then (c as int - 32) as char
    else if c == '\U{00FF}' then '\U{0178}'
    else if c == '\U{00B5}' then '\U{039C}'
    else c
  }

  predicate IsLowerLetter(c: char)
  {
    ('a' <= c <= 'z') || ('\U{00E0}' <= c <= '\U{00FF}' && c != '\U{00F7}') || c == '\U{00B5}'
  }

  /** `s.toUpperCase()`, character by character. */
  function ToUpper(s: string): (r: string)
    ensures |r| == |s|
    ensures forall i :: 0 <= i < |s| ==> r[i] == UpperChar(s[i])
  {
    seq(|s|, i requires 0 <= i < |s| => UpperChar(s[i]))
  }

  /** Upper-casing never turns a character into one that `trim` removes, nor
      the reverse. */
  lemma UpperCharKeepsTrimmable(c: char)
    ensures IsTrimmable(UpperChar(c)) == IsTrimmable(c)
  {
  }

  /** An upper-cased trimmed string is still trimmed: upper-casing cannot put
      a trimmable character at either end. */
  lemma UpperOfTrimmedIsTrimmed(s: string)
    ensures Trim(ToUpper(Trim(s))) == ToUpper(Trim(s))
  {
    var u := ToUpper(Trim(s));
    if u != [] {
      UpperCharKeepsTrimmable(Trim(s)[0]);
      UpperCharKeepsTrimmable(Trim(s)[|u| - 1]);
      assert LeadingTrimmable(u) == 0;
      assert TrailingTrimmable(u) == 0;
      assert u[0..|u|] == u;
    }
  }

  predicate StartsWith(s: string, prefix: string)
  {
    |prefix| <= |s| && s[..|prefix|] == prefix
  }

  predicate EndsWith(s: string, suffix: string)
  {
    |suffix| <= |s| && s[|s| - |suffix|..] == suffix
  }

  /** Putting the same string in front keeps a prefix a prefix. */
  lemma PrefixPrepend(h: string, s: string, prefix: string)
    requires StartsWith(s, prefix)
    ensures StartsWith(h + s, h + prefix)
  {
    assert (h + s)[..|h + prefix|] == h + s[..|prefix|];
  }

  /** Appending to a string keeps its prefixes. */
  lemma PrefixExtend(s: string, prefix: string, more: string)
    requires StartsWith(s, prefix)
    ensures StartsWith(s + more, prefix)
  {
    assert (s + more)[..|prefix|] == s[..|prefix|];
  }

  /** `parts.join(sep)`. */
  function Join(parts: seq<string>, sep: string): (r: string)
    decreases |parts|
  {
    if |parts| == 0 then ""
    else if |parts| == 1 then parts[0]
    else parts[0] + sep + Join(parts[1..], sep)
  }

  /** Joining one more part appends the separator and that part. */
  lemma {:induction false} JoinSnoc(parts: seq<string>, last: string, sep: string)
    requires |parts| > 0
    ensures Join(parts + [last], sep) == Join(parts, sep) + sep + last
  {
    if |parts| == 1 {
      assert (parts + [last])[1..] == [last];
    } else {
      assert (parts + [last])[1..] == parts[1..] + [last];
      JoinSnoc(parts[1..], last, sep);
    }
  }

  /** Total length of a list of strings. */
  function TotalLength(parts: seq<string>): nat
  {
    if |parts| == 0 then 0 else |parts[0]| + TotalLength(parts[1..])
  }

  /** A join is as long as its parts plus one separator between each pair. */
  lemma {:induction false} JoinLength(parts: seq<string>, sep: string)
    requires |parts| > 0
    ensures |Join(parts, sep)| == TotalLength(parts) + (|parts| - 1) * |sep|
  {
    if |parts| > 1 {
      JoinLength(parts[1..], sep);
    }
  }

  /** The parts written one after another, the last part at the end. */
  function Concat(parts: seq<string>): string
  {
    if |parts| == 0 then "" else Concat(parts[..|parts| - 1]) + parts[|parts| - 1]
  }

  /** Writing one more part of a list appends it. */
  lemma ConcatSnoc(parts: seq<string>, n: nat)
    requires n < |parts|
    ensures Concat(parts[..n + 1]) == Concat(parts[..n]) + parts[n]
  {
    assert parts[..n + 1][..n] == parts[..n];
  }

  /** Appending the next part to a string that holds the first `n` parts
      after some `start` gives the first `n + 1` parts after `start`. */
  lemma ConcatStep(start: string, acc: string, parts: seq<string>, n: nat, next: string)
    requires n < |parts| && next == parts[n]
    requires acc == start + Concat(parts[..n])
    ensures acc + next == start + Concat(parts[..n + 1])
  {
    ConcatSnoc(parts, n);
  }

  /** Writing fewer parts gives a prefix of writing them all. */
  lemma {:induction false} ConcatPrefix(parts: seq<string>, n: nat)
    requires n <= |parts|
    ensures StartsWith(Concat(parts), Concat(parts[..n]))
    decreases |parts|
  {
    if n < |parts| {
      var init := parts[..|parts| - 1];
      ConcatPrefix(init, n);
      assert init[..n] == parts[..n];
      var a := Concat(parts[..n]);
      assert (Concat(init) + parts[|parts| - 1])[..|a|] == Concat(init)[..|a|];
    } else {
      assert parts[..n] == parts;
    }
  }

  /** Number of occurrences of `c` in `s`. */
  function Count(s: string, c: char): (n: nat)
    ensures n <= |s|
  {
    if |s| == 0 then 0 else (if s[0] == c then 1 else 0) + Count(s[1..], c)
  }

  /** Position of the first `c` in `s`, or `|s|` when there is none. */
  function IndexOf(s: string, c: char): (k: nat)
    ensures k <= |s|
    ensures forall i :: 0 <= i < k ==> s[i] != c
    ensures k < |s| ==> s[k] == c
  {
    if |s| == 0 then 0 else if s[0] == c then 0 else 1 + IndexOf(s[1..], c)
  }

  /** The first `c` in `a + [c] + b` is the one after `a` when `a` has
      none. */
  lemma {:induction false} IndexOfAfter(a: string, b: string, c: char)
    requires c !in a
    ensures IndexOf(a + [c] + b, c) == |a|
  {
    if |a| > 0 {
      assert (a + [c] + b)[1..] == a[1..] + [c] + b;
      IndexOfAfter(a[1..], b, c);
    }
  }

  /** The front and the back of a concatenation. */
  lemma AppendParts(a: string, b: string)
    ensures StartsWith(a + b, a) && (a + b)[..|a|] == a && (a + b)[|a|..] == b
  {
  }

  /** `s.split(c)` for a one-character separator: the maximal pieces between
      occurrences of `c`, so `""` gives `[""]` and a trailing `c` gives a
      trailing `""`. */
  function Split(s: string, c: char): (parts: seq<string>)
    ensures |parts| > 0
    ensures forall k :: 0 <= k < |parts| ==> c !in parts[k]
    decreases |s|
  {
    var k := IndexOf(s, c);
    if k == |s| then [s] else [s[..k]] + Split(s[k + 1..], c)
  }

  /** Splitting gives one more piece than there are separators. */
  lemma {:induction false} SplitLength(s: string, c: char)
    ensures |Split(s, c)| == Count(s, c) + 1
    decreases |s|
  {
    var k := IndexOf(s, c);
    CountSplit(s, c, k);
    if k < |s| {
      SplitLength(s[k + 1..], c);
    }
  }

  /** Occurrences of `c` in `s` are those before `k` plus those from `k` on. */
  lemma {:induction false} CountSplit(s: string, c: char, k: nat)
    requires k <= |s|
    requires forall i :: 0 <= i < k ==> s[i] != c
    ensures Count(s, c) == Count(s[k..], c)
  {
    if k > 0 {
      assert s[1..][k - 1..] == s[k..];
      CountSplit(s[1..], c, k - 1);
    }
  }

  /** Joining the pieces of a split with the separator gives the string back. */
  lemma {:induction false} SplitJoin(s: string, c: char)
    ensures Join(Split(s, c), [c]) == s
    decreases |s|
  {
    var k := IndexOf(s, c);
    if k < |s| {
      SplitJoin(s[k + 1..], c);
      assert s == s[..k] + [c] + s[k + 1..];
    }
  }

  /** Decimal digits of a natural number. */
  function NatToString(n: nat): (r: string)
    ensures |r| > 0
    ensures forall i :: 0 <= i < |r| ==> '0' <= r[i] <= '9'
  {
    if n < 10 then [DigitChar(n)] else NatToString(n / 10) + [DigitChar(n % 10)]
  }

  function DigitChar(d: nat): (c: char)
    requires d < 10
    ensures '0' <= c <= '9'
  {
    ('0' as int + d) as char
  }

  /** The value of a string of decimal digits. */
  function DigitsValue(s: string): int
    requires forall i :: 0 <= i < |s| ==> '0' <= s[i] <= '9'
  {
    if |s| == 0 then 0 else DigitsValue(s[..|s| - 1]) * 10 + (s[|s| - 1] as int - '0' as int)
  }

  /** Reading the digits back gives the number. */
  lemma {:induction false} NatToStringValue(n: nat)
    ensures DigitsValue(NatToString(n)) == n
  {
    if n >= 10 {
      var r := NatToString(n);
      assert r[..|r| - 1] == NatToString(n / 10);
      NatToStringValue(n / 10);
    }
  }

  /** `${n}` for an integral JavaScript number. */
  function IntToString(n: int): string
  {
    if n < 0 then "-" + NatToString(-n) else NatToString(n)
  }
}
