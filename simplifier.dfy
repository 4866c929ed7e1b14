/** The concept simplifier: the model names the document's main concept and
    explains it with an analogy; the result can be copied as plain text. */
module Simplifier {

  import opened Outcomes
  import opened Text

  datatype View = Idle | Simplifying | Results

  datatype SimplificationResult = SimplificationResult(concept: string, explanation: string)

  /** The parsed JSON reply, whose fields may be missing. */
  datatype ParsedSimplification = ParsedSimplification(concept: Option<string>, explanation: Option<string>)

  const ErrorPrefix: string := "Error al simplificar el concepto. "
  const NotSimplifiedMessage: string := "La IA no pudo simplificar el concepto."

  const ConceptLabel: string := "Concepto: "
  const ExplanationLabel: string := "\n\nExplicación:\n"

  /** `formatSimplificationForCopy`: nothing without a result; otherwise the
      concept after its label, a blank line, and the explanation under its
      label. */
  function FormatSimplificationForCopy(result: Option<SimplificationResult>): (text: string)
    ensures result.None? <==> text == ""
    ensures result.Some? ==> StartsWith(text, ConceptLabel) && EndsWith(text, result.value.explanation)
  {
    match result
    case None => ""
    case Some(r) => ConceptLabel + r.concept + ExplanationLabel + r.explanation
  }

  /** Reads a copied simplification back: the concept runs from its label
      to the end of the line; the explanation is everything after its
      label. */
  function ParseCopy(text: string): Option<SimplificationResult>
  {
    if !StartsWith(text, ConceptLabel) then None
    else
      var body := text[|ConceptLabel|..];
      var k := IndexOf(body, '\n');
      var after := body[k..];
      if StartsWith(after, ExplanationLabel) then
        Some(SimplificationResult(body[..k], after[|ExplanationLabel|..]))
      else None
  }

  /** A copied result whose concept is one line reads back as that result. */
  lemma CopyRoundTrip(r: SimplificationResult)
    requires forall i :: 0 <= i < |r.concept| ==> r.concept[i] != '\n'
    ensures ParseCopy(FormatSimplificationForCopy(Some(r))) == Some(r)
  {
    var body := r.concept + ExplanationLabel + r.explanation;
    assert FormatSimplificationForCopy(Some(r)) == ConceptLabel + body;
    AppendParts(ConceptLabel, body);
    BodyParts(r.concept, r.explanation);
    AppendParts(ExplanationLabel, r.explanation);
  }

  /** The concept ends at the first newline, where the explanation label
      starts. */
  lemma BodyParts(concept: string, explanation: string)
    requires forall i :: 0 <= i < |concept| ==> concept[i] != '\n'
    ensures var body := concept + ExplanationLabel + explanation;
      && IndexOf(body, '\n') == |concept|
      && body[..|concept|] == concept
      && body[|concept|..] == ExplanationLabel + explanation
  {
    var tail := ExplanationLabel[1..] + explanation;
    assert ExplanationLabel == ['\n'] + ExplanationLabel[1..];
    assert concept + ExplanationLabel + explanation == concept + ['\n'] + tail;
    IndexOfAfter(concept, tail, '\n');
    AppendParts(concept, ExplanationLabel + explanation);
  }

  /** The check the reply must pass: both fields present and non-empty. */
  function Validate(parsed: ParsedSimplification): (r: Option<SimplificationResult>)
    ensures r.Some? <==> Present(parsed.concept) && Present(parsed.explanation)
    ensures r.Some? ==> r.value == SimplificationResult(parsed.concept.value, parsed.explanation.value)
  {
    if Present(parsed.concept) && Present(parsed.explanation) then
      Some(SimplificationResult(parsed.concept.value, parsed.explanation.value))
    else None
  }

  class ConceptSimplifier {
    var view: View
    var result: Option<SimplificationResult>
    var error: Option<string>
    /** Whether the model client exists (`ai` is set). */
    const hasClient: bool

    /** A result on screen has a non-empty concept and explanation. */
    ghost predicate Valid()
      reads this
    {
      view == Results ==> result.Some? && result.value.concept != "" && result.value.explanation != ""
    }

    constructor (hasClient: bool)
      ensures Valid()
      ensures view == Idle && result == None && error == None && this.hasClient == hasClient
    {
      view := Idle;
      result := None;
      error := None;
      this.hasClient := hasClient;
    }

    /** The synchronous start of `handleSimplify`, offered in the idle view
        and, to generate again, in the results view. */
    method BeginSimplify(pageContent: Option<string>) returns (started: bool)
      requires Valid() && view != Simplifying
      modifies this`view, this`error
      ensures Valid()
      ensures started == (hasClient && Present(pageContent))
      ensures started ==> view == Simplifying && error == None
      ensures !started ==> view == old(view) && error == old(error)
    {
      if !hasClient || !(pageContent.Some? && pageContent.value != "") {
        return false;
      }
      view := Simplifying;
      error := None;
      started := true;
    }

    /** `handleSimplify` after the call: `parsed` is the outcome of the call
        and of parsing its JSON. A throw or a missing or empty field returns
        to idle with the error set; otherwise the result is shown. */
    method SimplifyArrived(parsed: Result<ParsedSimplification, Thrown>)
      requires Valid() && view == Simplifying
      modifies this`view, this`error, this`result
      ensures Valid()
      ensures parsed.Err? ==> view == Idle && result == old(result)
                              && error == Some(FailureMessage(ErrorPrefix, parsed.error))
      ensures parsed.Ok? && Validate(parsed.value).None? ==>
                view == Idle && result == old(result) && error == Some(ErrorPrefix + NotSimplifiedMessage)
      ensures parsed.Ok? && Validate(parsed.value).Some? ==>
                view == Results && result == Validate(parsed.value) && error == old(error)
    {
      if parsed.Err? {
        error := Some(FailureMessage(ErrorPrefix, parsed.error));
        view := Idle;
        return;
      }
      var p := parsed.value;
      if !(p.concept.Some? && p.concept.value != "") || !(p.explanation.Some? && p.explanation.value != "") {
        error := Some(FailureMessage(ErrorPrefix, Error(NotSimplifiedMessage)));
        view := Idle;
        return;
      }
      result := Some(SimplificationResult(p.concept.value, p.explanation.value));
      view := Results;
    }

    /** `reset`. */
    method Reset()
      requires Valid()
      modifies this`view, this`result, this`error
      ensures Valid()
      ensures view == Idle && result == None && error == None
    {
      view := Idle;
      result := None;
      error := None;
    }

    /** The effect on `isOpen`: closing the dialog resets it. */
    method IsOpenChanged(isOpen: bool)
      requires Valid()
      modifies this`view, this`result, this`error
      ensures Valid()
      ensures !isOpen ==> view == Idle && result == None && error == None
      ensures isOpen ==> view == old(view) && result == old(result) && error == old(error)
    {
      if !isOpen {
        Reset();
      }
    }
  }
}
