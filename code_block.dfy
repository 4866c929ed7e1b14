/** The code block: the language shown in its title bar, the number of line
    numbers it draws, and its toolbar state (copied mark, line numbers,
    full screen, font size zoomed with shift and the mouse wheel). */
module CodeBlock {

  import opened Outcomes
  import opened Text

  const LanguagePrefix: string := "language-"
  const DefaultLanguage: string := "text"

  const MinFontSize: real := 8.0
  const MaxFontSize: real := 32.0
  const DefaultFontSize: real := 14.0
  /** Font-size change per unit of wheel `deltaY`. */
  const WheelFactor: real := 0.1

  /** `\w`: ASCII letters, digits and `_`. */
  predicate IsWordChar(c: char)
  {
    ('a' <= c <= 'z') || ('A' <= c <= 'Z') || ('0' <= c <= '9') || c == '_'
  }

  /** `/language-(\w+)/` matches at position `p` of `s`. */
  predicate MatchesAt(s: string, p: nat)
  {
    p + |LanguagePrefix| < |s| && s[p..p + |LanguagePrefix|] == LanguagePrefix && IsWordChar(s[p + |LanguagePrefix|])
  }

  /** The leftmost match at or after `from`, if any. */
  function FirstMatch(s: string, from: nat): (p: Option<nat>)
    ensures p.Some? ==> from <= p.value && MatchesAt(s, p.value)
                        && forall q :: from <= q < p.value ==> !MatchesAt(s, q)
    ensures p.None? ==> forall q :: from <= q ==> !MatchesAt(s, q)
    decreases |s| - from
  {
    if from + |LanguagePrefix| >= |s| then None
    else if MatchesAt(s, from) then Some(from)
    else FirstMatch(s, from + 1)
  }

  /** Length of the run of word characters of `s` starting at `i`: the
      greedy `\w+`. */
  function WordRun(s: string, i: nat): (n: nat)
    requires i <= |s|
    ensures i + n <= |s|
    ensures forall k :: i <= k < i + n ==> IsWordChar(s[k])
    ensures i + n < |s| ==> !IsWordChar(s[i + n])
    decreases |s| - i
  {
    if i == |s| || !IsWordChar(s[i]) then 0 else 1 + WordRun(s, i + 1)
  }

  /** `p` is where the leftmost match of `/language-(\w+)/` starts. */
  predicate LeftmostMatch(s: string, p: nat)
  {
    MatchesAt(s, p) && forall q :: 0 <= q < p ==> !MatchesAt(s, q)
  }

  /** `w` is the maximal run of word characters of `s` at `start`: what the
      capture group `(\w+)` takes there. */
  predicate MaximalWordAt(s: string, start: nat, w: string)
  {
    && start + |w| <= |s| && s[start..start + |w|] == w
    && (forall k :: 0 <= k < |w| ==> IsWordChar(w[k]))
    && (start + |w| == |s| || !IsWordChar(s[start + |w|]))
  }

  /** There is at most one leftmost match. */
  lemma LeftmostUnique(s: string, p: nat)
    requires LeftmostMatch(s, p)
    ensures forall q: nat :: LeftmostMatch(s, q) ==> q == p
  {
  }

  /** `getLanguage(className)`: the word after the leftmost `language-`
      followed by a word character, or `text`. A missing class name counts
      as the empty one. */
  function GetLanguage(className: Option<string>): (lang: string)
    ensures |lang| > 0
    ensures (forall q :: !MatchesAt(OrElse(className, ""), q)) ==> lang == DefaultLanguage
    ensures forall p: nat :: LeftmostMatch(OrElse(className, ""), p) ==>
              MaximalWordAt(OrElse(className, ""), p + |LanguagePrefix|, lang)
  {
    var s := OrElse(className, "");
    match FirstMatch(s, 0)
    case None => DefaultLanguage
    case Some(p) =>
      var start := p + |LanguagePrefix|;
      var n := WordRun(s, start);
      LeftmostUnique(s, p);
      s[start..start + n]
  }

  /** A class list whose first `language-` followed by a word character
      comes after `before` and names the word `w` (ended by a non-word
      character or by the end) has the language `w`. */
  lemma LanguageOfClass(before: string, w: string, rest: string)
    requires |w| > 0 && forall k :: 0 <= k < |w| ==> IsWordChar(w[k])
    requires rest == [] || !IsWordChar(rest[0])
    requires forall q :: 0 <= q < |before| ==> !MatchesAt(before + LanguagePrefix + w + rest, q)
    ensures GetLanguage(Some(before + LanguagePrefix + w + rest)) == w
  {
    var s := before + LanguagePrefix + w + rest;
    var p := |before|;
    var start := p + |LanguagePrefix|;
    assert s[p..start] == LanguagePrefix;
    assert s[start..start + |w|] == w;
    assert MatchesAt(s, p);
    assert LeftmostMatch(s, p);
    var lang := GetLanguage(Some(s));
    assert MaximalWordAt(s, start, lang);
    WordRunOfWord(s, start, w);
    WordRunOfWord(s, start, lang);
  }

  /** The class list `hljs language-ts` names TypeScript's `ts`. */
  lemma LanguageAfterOtherClass()
    ensures GetLanguage(Some("hljs language-ts")) == "ts"
  {
    var s := "hljs " + LanguagePrefix + "ts" + "";
    assert s == "hljs language-ts";
    forall q | 0 <= q < 5
      ensures !MatchesAt(s, q)
    {
      assert s[0] == 'h' && s[1] == 'l' && s[2] == 'j' && s[3] == 's' && s[4] == ' ';
      assert q == 1 || s[q] != 'l';
      assert s[q..q + 9][0] == s[q] && s[q..q + 9][1] == s[q + 1];
    }
    LanguageOfClass("hljs ", "ts", "");
  }

  lemma {:induction false} WordRunOfWord(s: string, i: nat, w: string)
    requires i + |w| <= |s| && s[i..i + |w|] == w
    requires forall k :: 0 <= k < |w| ==> IsWordChar(w[k])
    requires i + |w| == |s| || !IsWordChar(s[i + |w|])
    ensures WordRun(s, i) == |w|
    decreases |w|
  {
    if |w| > 0 {
      assert s[i] == w[0];
      assert s[i + 1..i + 1 + |w[1..]|] == w[1..];
      WordRunOfWord(s, i + 1, w[1..]);
    }
  }

  /** The language of a class name is made of word characters only. */
  lemma LanguageIsWord(className: Option<string>)
    ensures GetLanguage(className) == DefaultLanguage
            || forall k :: 0 <= k < |GetLanguage(className)| ==> IsWordChar(GetLanguage(className)[k])
  {
  }

  /** The effect that counts lines: the pieces of the text split at `\n`,
      not counting the empty piece after a final newline. */
  function LineCount(text: string): nat
  {
    var lines := Split(text, '\n');
    if EndsWith(text, "\n") then |lines| - 1 else |lines|
  }

  /** One line per newline, plus one for a last line that does not end
      with a newline. */
  lemma LineCountByNewlines(text: string)
    ensures LineCount(text) == Count(text, '\n') + (if EndsWith(text, "\n") then 0 else 1)
  {
    SplitLength(text, '\n');
  }

  /** A newline ending the last line adds no line. */
  lemma FinalNewlineAddsNoLine(text: string)
    requires !EndsWith(text, "\n")
    ensures LineCount(text + "\n") == LineCount(text)
  {
    LineCountByNewlines(text);
    LineCountByNewlines(text + "\n");
    CountAppend(text, "\n", '\n');
    assert (text + "\n")[|text + "\n"| - 1..] == "\n";
  }

  lemma {:induction false} CountAppend(a: string, b: string, c: char)
    ensures Count(a + b, c) == Count(a, c) + Count(b, c)
  {
    if |a| > 0 {
      assert (a + b)[1..] == a[1..] + b;
      CountAppend(a[1..], b, c);
    } else {
      assert a + b == b;
    }
  }

  /** Empty code still shows one line number. */
  lemma EmptyCodeHasOneLine()
    ensures LineCount("") == 1
  {
    assert Split("", '\n') == [""];
  }

  /** `Math.max(8, Math.min(32, size))`. */
  function ClampFontSize(size: real): (r: real)
    ensures MinFontSize <= r <= MaxFontSize
    ensures MinFontSize <= size <= MaxFontSize ==> r == size
    ensures size < MinFontSize ==> r == MinFontSize
    ensures size > MaxFontSize ==> r == MaxFontSize
  {
    if size > MaxFontSize then MaxFontSize else if size < MinFontSize then MinFontSize else size
  }

  /** Clamping keeps the order of sizes: zooming further never shrinks the
      text. */
  lemma ClampMonotone(a: real, b: real)
    requires a <= b
    ensures ClampFontSize(a) <= ClampFontSize(b)
  {
  }

  class CodeBlockState {
    var isCopied: bool
    var showLineNumbers: bool
    var isFullscreen: bool
    var fontSize: real

    /** The font size stays within its bounds. */
    ghost predicate Valid()
      reads this
    {
      MinFontSize <= fontSize <= MaxFontSize
    }

    constructor ()
      ensures Valid()
      ensures !isCopied && !showLineNumbers && !isFullscreen && fontSize == DefaultFontSize
    {
      isCopied := false;
      showLineNumbers := false;
      isFullscreen := false;
      fontSize := DefaultFontSize;
    }

    /** `handleCopy`: with non-empty text in the block, that text is
        returned for the clipboard and the copied mark is set. */
    method HandleCopy(textContent: Option<string>) returns (clipboard: Option<string>)
      requires Valid()
      modifies this`isCopied
      ensures Valid()
      ensures Present(textContent) ==> clipboard == textContent && isCopied
      ensures !Present(textContent) ==> clipboard == None && isCopied == old(isCopied)
    {
      if textContent.Some? && textContent.value != "" {
        clipboard := textContent;
        isCopied := true;
      } else {
        clipboard := None;
      }
    }

    /** The timer two seconds after a copy clears the mark. */
    method CopiedTimeout()
      requires Valid()
      modifies this`isCopied
      ensures Valid() && !isCopied
    {
      isCopied := false;
    }

    method ToggleLineNumbers()
      requires Valid()
      modifies this`showLineNumbers
      ensures Valid() && showLineNumbers == !old(showLineNumbers)
    {
      showLineNumbers := !showLineNumbers;
    }

    method ToggleFullscreen()
      requires Valid()
      modifies this`isFullscreen
      ensures Valid() && isFullscreen == !old(isFullscreen)
    {
      isFullscreen := !isFullscreen;
    }

    /** `handleWheel`: with shift held, the default scroll is prevented and
        the size moves by a tenth of `deltaY` against the wheel, clamped;
        without shift nothing changes. */
    method HandleWheel(shiftKey: bool, deltaY: real) returns (preventDefault: bool)
      requires Valid()
      modifies this`fontSize
      ensures Valid()
      ensures preventDefault == shiftKey
      ensures shiftKey ==> fontSize == ClampFontSize(old(fontSize) - deltaY * WheelFactor)
      ensures !shiftKey ==> fontSize == old(fontSize)
    {
      preventDefault := shiftKey;
      if shiftKey {
        var newSize := fontSize - deltaY * WheelFactor;
        var capped := if newSize < MaxFontSize then newSize else MaxFontSize;
        fontSize := if MinFontSize < capped then capped else MinFontSize;
      }
    }
  }
}
