/** The glossary generator: the model returns a list of terms with their
    definitions, which is sorted by term and shown; the list can be copied
    as plain text. */
module Glossary {

  import opened Outcomes
  import opened Text

  datatype View = Idle | Generating | Results

  datatype GlossaryTerm = GlossaryTerm(term: string, definition: string)

  const ErrorPrefix: string := "Error al generar el glosario. "
  const NoTermsMessage: string := "La IA no pudo generar ningún término del glosario."

  /** The order the terms are sorted in: code-point lexicographic order, a
      prefix coming before every longer string. */
  predicate StrLe(a: string, b: string)
  {
    |a| == 0 || (|b| > 0 && (a[0] < b[0] || (a[0] == b[0] && StrLe(a[1..], b[1..]))))
  }

  lemma {:induction false} StrLeReflexive(a: string)
    ensures StrLe(a, a)
  {
    if |a| > 0 {
      StrLeReflexive(a[1..]);
    }
  }

  /** Any two strings are comparable. */
  lemma {:induction false} StrLeTotal(a: string, b: string)
    ensures StrLe(a, b) || StrLe(b, a)
  {
    if |a| > 0 && |b| > 0 && a[0] == b[0] {
      StrLeTotal(a[1..], b[1..]);
    }
  }

  lemma {:induction false} StrLeTransitive(a: string, b: string, c: string)
    requires StrLe(a, b) && StrLe(b, c)
    ensures StrLe(a, c)
  {
    if |a| > 0 && a[0] == b[0] && b[0] == c[0] {
      StrLeTransitive(a[1..], b[1..], c[1..]);
    }
  }

  /** Two strings that are each at most the other are equal. */
  lemma {:induction false} StrLeAntisymmetric(a: string, b: string)
    requires StrLe(a, b) && StrLe(b, a)
    ensures a == b
  {
    if |a| > 0 {
      StrLeAntisymmetric(a[1..], b[1..]);
      assert a == [a[0]] + a[1..] && b == [b[0]] + b[1..];
    }
  }

  /** What `localeCompare` is taken to provide: `le(a, b)` stands for
      `a.localeCompare(b) <= 0`, a total preorder on strings. */
  ghost predicate TotalPreorder(le: (string, string) -> bool)
  {
    && (forall a, b :: le(a, b) || le(b, a))
    && (forall a, b, c :: le(a, b) && le(b, c) ==> le(a, c))
  }

  /** Code-point order is one such order. */
  lemma StrLeIsTotalPreorder()
    ensures TotalPreorder((a, b) => StrLe(a, b))
  {
    forall a, b
      ensures StrLe(a, b) || StrLe(b, a)
    {
      StrLeTotal(a, b);
    }
    forall a, b, c | StrLe(a, b) && StrLe(b, c)
      ensures StrLe(a, c)
    {
      StrLeTransitive(a, b, c);
    }
  }

  /** Sorted by term under `le`. */
  predicate Sorted(g: seq<GlossaryTerm>, le: (string, string) -> bool)
  {
    forall p, q :: 0 <= p < q < |g| ==> le(g[p].term, g[q].term)
  }

  /** `glossary.sort((a, b) => a.term.localeCompare(b.term))`: sorts the
      array in place by term, inserting each element into the sorted prefix
      before it. */
  method SortByTerm(a: array<GlossaryTerm>, le: (string, string) -> bool)
    requires TotalPreorder(le)
    modifies a
    ensures Sorted(a[..], le)
    ensures multiset(a[..]) == multiset(old(a[..]))
  {
    var i := 0;
    while i < a.Length
      invariant 0 <= i <= a.Length
      invariant forall p, q :: 0 <= p < q < i ==> le(a[p].term, a[q].term)
      invariant multiset(a[..]) == multiset(old(a[..]))
    {
      Insert(a, i, le);
      i := i + 1;
    }
    assert a[..] == a[..a.Length];
  }

  /** Moves `a[i]` down by adjacent swaps to its place in the sorted prefix
      `a[..i]`, so that `a[..i + 1]` is sorted. */
  method Insert(a: array<GlossaryTerm>, i: nat, le: (string, string) -> bool)
    requires TotalPreorder(le)
    requires i < a.Length
    requires forall p, q :: 0 <= p < q < i ==> le(a[p].term, a[q].term)
    modifies a
    ensures forall p, q :: 0 <= p < q <= i ==> le(a[p].term, a[q].term)
    ensures multiset(a[..]) == multiset(old(a[..]))
  {
    var j := i;
    while j > 0 && !le(a[j - 1].term, a[j].term)
      invariant 0 <= j <= i
      invariant forall p, q :: 0 <= p < q <= i && p != j && q != j ==> le(a[p].term, a[q].term)
      invariant forall q :: j < q <= i ==> le(a[j].term, a[q].term)
      invariant multiset(a[..]) == multiset(old(a[..]))
    {
      a[j - 1], a[j] := a[j], a[j - 1];
      j := j - 1;
    }
  }

  /** `formatGlossaryForCopy`: each term on one line and its definition on
      the next, entries separated by a blank line. */
  function FormatGlossaryForCopy(g: seq<GlossaryTerm>): (r: string)
    ensures r == "" <==> g == []
    ensures g != [] ==> StartsWith(r, g[0].term + "\n" + g[0].definition)
  {
    Join(seq(|g|, i requires 0 <= i < |g| => g[i].term + "\n" + g[i].definition), "\n\n")
  }

  /** Reads copied glossary lines back: a term line, a definition line,
      then a blank line before the next entry. */
  function TermsFromLines(lines: seq<string>): seq<GlossaryTerm>
  {
    if |lines| < 2 then []
    else [GlossaryTerm(lines[0], lines[1])] + (if |lines| < 3 then [] else TermsFromLines(lines[3..]))
  }

  predicate SingleLine(s: string)
  {
    forall i :: 0 <= i < |s| ==> s[i] != '\n'
  }

  /** Splitting at the first separator when the part before it has none. */
  lemma SplitAtFirst(a: string, b: string, c: char)
    requires forall i :: 0 <= i < |a| ==> a[i] != c
    ensures Split(a + [c] + b, c) == [a] + Split(b, c)
  {
    var s := a + [c] + b;
    assert s[|a|] == c;
    assert forall i :: 0 <= i < |a| ==> s[i] == a[i];
    assert s[..|a|] == a;
    assert s[|a| + 1..] == b;
  }

  /** A single-line string splits to itself. */
  lemma SplitNone(a: string, c: char)
    requires forall i :: 0 <= i < |a| ==> a[i] != c
    ensures Split(a, c) == [a]
  {
  }

  /** The copy of a glossary of several entries is its first entry, a
      blank line and the copy of the rest. */
  lemma CopyCons(g: seq<GlossaryTerm>)
    requires |g| > 1
    ensures FormatGlossaryForCopy(g) == g[0].term + "\n" + g[0].definition + "\n\n" + FormatGlossaryForCopy(g[1..])
  {
    var e := seq(|g|, i requires 0 <= i < |g| => g[i].term + "\n" + g[i].definition);
    var r := g[1..];
    assert e[1..] == seq(|r|, i requires 0 <= i < |r| => r[i].term + "\n" + r[i].definition);
  }

  /** The lines of one entry followed by a blank line and more text. */
  lemma SplitEntry(t: string, d: string, rest: string)
    requires SingleLine(t) && SingleLine(d)
    ensures Split(t + "\n" + d + "\n\n" + rest, '\n') == [t, d, ""] + Split(rest, '\n')
  {
    EntryText(t, d, rest);
    SplitLines(t, d, rest);
  }

  lemma EntryText(t: string, d: string, rest: string)
    ensures t + "\n" + d + "\n\n" + rest == t + ['\n'] + (d + ['\n'] + ([] + ['\n'] + rest))
  {
    var nl: string := ['\n'];
    assert "\n\n" == nl + nl;
    assert [] + nl + rest == nl + rest;
  }

  lemma SplitLines(t: string, d: string, rest: string)
    requires SingleLine(t) && SingleLine(d)
    ensures Split(t + ['\n'] + (d + ['\n'] + ([] + ['\n'] + rest)), '\n') == [t, d, ""] + Split(rest, '\n')
  {
    var s3 := [] + ['\n'] + rest;
    var s2 := d + ['\n'] + s3;
    SplitAtFirst([], rest, '\n');
    SplitAtFirst(d, s3, '\n');
    SplitAtFirst(t, s2, '\n');
    var x := Split(rest, '\n');
    assert [t] + ([d] + ([[]] + x)) == [t, d, ""] + x;
  }

  /** Copying a glossary whose terms and definitions are single lines, then
      reading the lines back, gives the glossary. */
  lemma {:induction false} CopyRoundTrip(g: seq<GlossaryTerm>)
    requires forall k :: 0 <= k < |g| ==> SingleLine(g[k].term) && SingleLine(g[k].definition)
    ensures TermsFromLines(Split(FormatGlossaryForCopy(g), '\n')) == g
  {
    if |g| == 0 {
      assert Split("", '\n') == [""];
    } else if |g| == 1 {
      CopyRoundTripOne(g);
    } else {
      CopyRoundTrip(g[1..]);
      CopyRoundTripCons(g);
    }
  }

  lemma CopyRoundTripOne(g: seq<GlossaryTerm>)
    requires |g| == 1 && SingleLine(g[0].term) && SingleLine(g[0].definition)
    ensures TermsFromLines(Split(FormatGlossaryForCopy(g), '\n')) == g
  {
    var t, d := g[0].term, g[0].definition;
    SplitNone(d, '\n');
    assert FormatGlossaryForCopy(g) == t + ['\n'] + d;
    SplitAtFirst(t, d, '\n');
  }

  /** The step of the round trip: the first entry's three lines, then the
      lines of the rest. */
  lemma CopyRoundTripCons(g: seq<GlossaryTerm>)
    requires |g| > 1 && SingleLine(g[0].term) && SingleLine(g[0].definition)
    requires TermsFromLines(Split(FormatGlossaryForCopy(g[1..]), '\n')) == g[1..]
    ensures TermsFromLines(Split(FormatGlossaryForCopy(g), '\n')) == g
  {
    var rest := FormatGlossaryForCopy(g[1..]);
    CopyCons(g);
    SplitEntry(g[0].term, g[0].definition, rest);
    var lines := Split(FormatGlossaryForCopy(g), '\n');
    assert lines == [g[0].term, g[0].definition, ""] + Split(rest, '\n');
    assert lines[3..] == Split(rest, '\n');
    assert TermsFromLines(lines) == [GlossaryTerm(g[0].term, g[0].definition)] + g[1..];
    assert g == [g[0]] + g[1..];
  }

  /** Copying one more entry appends a blank line and that entry. */
  lemma CopyAppend(g: seq<GlossaryTerm>, x: GlossaryTerm)
    requires |g| > 0
    ensures FormatGlossaryForCopy(g + [x]) == FormatGlossaryForCopy(g) + "\n\n" + x.term + "\n" + x.definition
  {
    var e := seq(|g|, i requires 0 <= i < |g| => g[i].term + "\n" + g[i].definition);
    var h := g + [x];
    assert seq(|h|, i requires 0 <= i < |h| => h[i].term + "\n" + h[i].definition) == e + [x.term + "\n" + x.definition];
    JoinSnoc(e, x.term + "\n" + x.definition, "\n\n");
  }

  class GlossaryGenerator {
    var view: View
    var glossary: seq<GlossaryTerm>
    var error: Option<string>
    /** Whether the model client exists (`ai` is set). */
    const hasClient: bool

    /** `a.localeCompare(b) <= 0` in the page's locale. */
    const termLe: (string, string) -> bool

    /** A glossary on screen is never empty and is sorted by term. */
    ghost predicate Valid()
      reads this
    {
      && TotalPreorder(termLe)
      && (view == Results ==> |glossary| > 0 && Sorted(glossary, termLe))
    }

    constructor (hasClient: bool, termLe: (string, string) -> bool)
      requires TotalPreorder(termLe)
      ensures Valid()
      ensures view == Idle && glossary == [] && error == None
      ensures this.hasClient == hasClient && this.termLe == termLe
    {
      view := Idle;
      glossary := [];
      error := None;
      this.hasClient := hasClient;
      this.termLe := termLe;
    }

    /** The synchronous start of `handleGenerateGlossary`, offered in the
        idle view and, to generate again, in the results view. */
    method BeginGeneration(pageContent: Option<string>) returns (started: bool)
      requires Valid() && view != Generating
      modifies this`view, this`error
      ensures Valid()
      ensures started == (hasClient && Present(pageContent))
      ensures started ==> view == Generating && error == None
      ensures !started ==> view == old(view) && error == old(error)
    {
      if !hasClient || !(pageContent.Some? && pageContent.value != "") {
        return false;
      }
      view := Generating;
      error := None;
      started := true;
    }

    /** `handleGenerateGlossary` after the call: `parsed` is the outcome of
        the call and of parsing its JSON, with the `glossary` field if present.
        A throw or a missing or empty list returns to idle with the error set;
        otherwise the terms, sorted, are shown. */
    method GenerationArrived(parsed: Result<Option<seq<GlossaryTerm>>, Thrown>)
      requires Valid() && view == Generating
      modifies this`view, this`error, this`glossary
      ensures Valid()
      ensures parsed.Err? ==> view == Idle && glossary == old(glossary)
                              && error == Some(FailureMessage(ErrorPrefix, parsed.error))
      ensures parsed.Ok? && (parsed.value.None? || parsed.value.value == []) ==>
                view == Idle && glossary == old(glossary) && error == Some(ErrorPrefix + NoTermsMessage)
      ensures parsed.Ok? && parsed.value.Some? && parsed.value.value != [] ==>
                && view == Results && error == old(error)
                && Sorted(glossary, termLe) && multiset(glossary) == multiset(parsed.value.value)
    {
      if parsed.Err? {
        error := Some(FailureMessage(ErrorPrefix, parsed.error));
        view := Idle;
        return;
      }
      if parsed.value.None? || |parsed.value.value| == 0 {
        error := Some(FailureMessage(ErrorPrefix, Error(NoTermsMessage)));
        view := Idle;
        return;
      }
      var terms := parsed.value.value;
      var a := new GlossaryTerm[|terms|](i requires 0 <= i < |terms| => terms[i]);
      assert a[..] == terms;
      SortByTerm(a, termLe);
      glossary := a[..];
      view := Results;
    }

    /** `reset`. */
    method Reset()
      requires Valid()
      modifies this`view, this`glossary, this`error
      ensures Valid()
      ensures view == Idle && glossary == [] && error == None
    {
      view := Idle;
      glossary := [];
      error := None;
    }

    /** The effect on `isOpen`: closing the dialog resets it. */
    method IsOpenChanged(isOpen: bool)
      requires Valid()
      modifies this`view, this`glossary, this`error
      ensures Valid()
      ensures !isOpen ==> view == Idle && glossary == [] && error == None
      ensures isOpen ==> view == old(view) && glossary == old(glossary) && error == old(error)
    {
      if !isOpen {
        Reset();
      }
    }
  }
}
