/** The summarizer: the model writes a bullet-point summary of the document,
    which is shown trimmed. */
module Summarizer {

  import opened Outcomes
  import opened Text

  datatype View = Idle | Generating | Results

  const ErrorPrefix: string := "Error al generar el resumen. "
  const NoSummaryMessage: string := "La IA no pudo generar un resumen."

  /** What the reply text becomes: its trimmed text, or nothing when that is
      empty. */
  function SummaryOf(text: string): (s: Option<string>)
    ensures s.None? <==> IsBlank(text)
    ensures s.Some? ==> s.value == Trim(text) && s.value != "" && Trim(s.value) == s.value
  {
    TrimIdempotent(text);
    if Trim(text) == "" then None else Some(Trim(text))
  }

  class SummaryGenerator {
    var view: View
    var summary: Option<string>
    var error: Option<string>
    /** Whether the model client exists (`ai` is set). */
    const hasClient: bool

    /** A summary on screen is non-empty and has no surrounding
        whitespace. */
    ghost predicate Valid()
      reads this
    {
      view == Results ==> summary.Some? && summary.value != "" && Trim(summary.value) == summary.value
    }

    constructor (hasClient: bool)
      ensures Valid()
      ensures view == Idle && summary == None && error == None && this.hasClient == hasClient
    {
      view := Idle;
      summary := None;
      error := None;
      this.hasClient := hasClient;
    }

    /** The synchronous start of `handleGenerateSummary`, offered in the idle
        view and, to generate again, in the results view. */
    method BeginGeneration(pageContent: Option<string>) returns (started: bool)
      requires Valid() && view != Generating
      modifies this`view, this`error
      ensures Valid()
      ensures started == (hasClient && Present(pageContent))
      ensures started ==> view == Generating && error == None
      ensures !started ==> view == old(view) && error == old(error)
    {
      if !hasClient || !(pageContent.Some? && pageContent.value != "") {
        return false;
      }
      view := Generating;
      error := None;
      started := true;
    }

    /** `handleGenerateSummary` after the call: `response` is the reply text
        or what the call threw. A throw or a blank reply returns to idle with
        the error set; otherwise the trimmed reply is shown. */
    method GenerationArrived(response: Result<string, Thrown>)
      requires Valid() && view == Generating
      modifies this`view, this`error, this`summary
      ensures Valid()
      ensures response.Err? ==> view == Idle && summary == old(summary)
                                && error == Some(FailureMessage(ErrorPrefix, response.error))
      ensures response.Ok? && SummaryOf(response.value).None? ==>
                view == Idle && summary == old(summary) && error == Some(ErrorPrefix + NoSummaryMessage)
      ensures response.Ok? && SummaryOf(response.value).Some? ==>
                view == Results && summary == SummaryOf(response.value) && error == old(error)
    {
      if response.Err? {
        error := Some(FailureMessage(ErrorPrefix, response.error));
        view := Idle;
        return;
      }
      var summaryText := Trim(response.value);
      if summaryText == "" {
        error := Some(FailureMessage(ErrorPrefix, Error(NoSummaryMessage)));
        view := Idle;
        return;
      }
      TrimIdempotent(response.value);
      summary := Some(summaryText);
      view := Results;
    }

    /** `reset`. */
    method Reset()
      requires Valid()
      modifies this`view, this`summary, this`error
      ensures Valid()
      ensures view == Idle && summary == None && error == None
    {
      view := Idle;
      summary := None;
      error := None;
    }

    /** The effect on `isOpen`: closing the dialog resets it. */
    method IsOpenChanged(isOpen: bool)
      requires Valid()
      modifies this`view, this`summary, this`error
      ensures Valid()
      ensures !isOpen ==> view == Idle && summary == None && error == None
      ensures isOpen ==> view == old(view) && summary == old(summary) && error == old(error)
    {
      if !isOpen {
        Reset();
      }
    }
  }
}
