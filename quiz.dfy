/** The quiz generator: question generation, answering with navigation
    between questions, grading every answer with one model call per question,
    the score totals and the plain-text report of the results. */
module Quiz {

  import opened Outcomes
  import opened Text

  datatype View = Idle | Generating | Answering | Evaluating | Results

  datatype QuizQuestion = QuizQuestion(question: string, idealAnswer: string)

  datatype EvaluationResult = EvaluationResult(score: int, feedback: string)

  /** What one grading call is asked about. */
  datatype EvaluationRequest = EvaluationRequest(question: string, idealAnswer: string, userAnswer: string)

  /** The text a grading prompt carries for an unanswered question. */
  const NoAnswerPlaceholder: string := "No se proporcionó respuesta."

  const GenerateErrorPrefix: string := "Error al generar el cuestionario. "
  const NoQuestionsMessage: string := "La IA no pudo generar ninguna pregunta."
  const EvaluateErrorPrefix: string := "Error al evaluar las respuestas. "

  /** The largest score one answer can get. */
  const MaxScorePerQuestion: int := 5

  /** `answers[i] || fallback`: the answer typed for question `i`, or the
      fallback when there is none or it is empty. */
  function AnswerOr(answers: map<int, string>, i: int, fallback: string): (a: string)
    ensures i in answers && answers[i] != "" ==> a == answers[i]
    ensures i !in answers || answers[i] == "" ==> a == fallback
  {
    if i in answers && answers[i] != "" then answers[i] else fallback
  }

  /** One grading request per question, in question order. */
  function EvaluationRequests(questions: seq<QuizQuestion>, answers: map<int, string>): (rs: seq<EvaluationRequest>)
    ensures |rs| == |questions|
    ensures forall i :: 0 <= i < |questions| ==>
              rs[i] == EvaluationRequest(questions[i].question, questions[i].idealAnswer,
                                         AnswerOr(answers, i, NoAnswerPlaceholder))
  {
    seq(|questions|, i requires 0 <= i < |questions| =>
      EvaluationRequest(questions[i].question, questions[i].idealAnswer, AnswerOr(answers, i, NoAnswerPlaceholder)))
  }

  /** `Promise.all` over the grading calls, taken in order: every result in
      the position of its call, or the first failure. */
  function Gather<T>(outcomes: seq<Result<T, Thrown>>): (r: Result<seq<T>, Thrown>)
    ensures r.Ok? <==> forall i :: 0 <= i < |outcomes| ==> outcomes[i].Ok?
    ensures r.Ok? ==> |r.value| == |outcomes|
                      && forall i :: 0 <= i < |outcomes| ==> outcomes[i] == Ok(r.value[i])
    ensures r.Err? ==> exists i :: 0 <= i < |outcomes| && outcomes[i] == Err(r.error)
                                   && forall j :: 0 <= j < i ==> outcomes[j].Ok?
  {
    if |outcomes| == 0 then Ok([])
    else match outcomes[0]
      case Err(e) => Err(e)
      case Ok(v) =>
        match Gather(outcomes[1..])
        case Err(e) => Err(e)
        case Ok(vs) => Ok([v] + vs)
  }

  /** Sum of the scores. */
  function TotalScore(results: seq<EvaluationResult>): int
  {
    if |results| == 0 then 0 else results[0].score + TotalScore(results[1..])
  }

  /** Five points per question. */
  function MaxScore(questions: seq<QuizQuestion>): int
  {
    MaxScorePerQuestion * |questions|
  }

  predicate ScoresInRange(results: seq<EvaluationResult>)
  {
    forall i :: 0 <= i < |results| ==> 0 <= results[i].score <= MaxScorePerQuestion
  }

  /** The total of two lists of grades is the sum of their totals. */
  lemma {:induction false} TotalScoreAppend(a: seq<EvaluationResult>, b: seq<EvaluationResult>)
    ensures TotalScore(a + b) == TotalScore(a) + TotalScore(b)
  {
    if |a| == 0 {
      assert a + b == b;
    } else {
      assert (a + b)[0] == a[0];
      assert (a + b)[1..] == a[1..] + b;
      TotalScoreAppend(a[1..], b);
    }
  }

  /** When every grade is within 0..5, the total lies between 0 and the
      maximum for the quiz. */
  lemma {:induction false} TotalScoreBounds(questions: seq<QuizQuestion>, results: seq<EvaluationResult>)
    requires |results| == |questions| && ScoresInRange(results)
    ensures 0 <= TotalScore(results) <= MaxScore(questions)
  {
    if |results| > 0 {
      TotalScoreBounds(questions[1..], results[1..]);
    }
  }

  /** The first three lines of the copied report. `t` is the translation
      lookup. */
  function ReportHeader(questions: seq<QuizQuestion>, results: seq<EvaluationResult>,
                        pageTitle: Option<string>, t: string -> string): string
  {
    t("quizResults") + " para: " + OrElse(pageTitle, t("thisDocument")) + "\n"
    + "Puntuación Total: " + IntToString(TotalScore(results)) + " / " + IntToString(MaxScore(questions)) + "\n"
    + "------------------------------------\n\n"
  }

  /** The block of the report about question `i`. */
  function ReportEntry(questions: seq<QuizQuestion>, answers: map<int, string>, results: seq<EvaluationResult>,
                       t: string -> string, i: nat): string
    requires i < |questions| && i < |results|
  {
    "Pregunta " + IntToString(i + 1) + ": " + questions[i].question + "\n"
    + t("yourAnswer") + " " + AnswerOr(answers, i, t("noAnswerProvided")) + "\n"
    + t("idealAnswer") + " " + questions[i].idealAnswer + "\n"
    + "Puntuación: " + IntToString(results[i].score) + "/5\n"
    + t("aiFeedback") + " " + results[i].feedback + "\n\n"
  }

  /** One block per question, in question order. */
  function ReportEntries(questions: seq<QuizQuestion>, answers: map<int, string>, results: seq<EvaluationResult>,
                         t: string -> string): (blocks: seq<string>)
    requires |questions| <= |results|
    ensures |blocks| == |questions|
    ensures forall i :: 0 <= i < |questions| ==> blocks[i] == ReportEntry(questions, answers, results, t, i)
  {
    seq(|questions|, i requires 0 <= i < |questions| => ReportEntry(questions, answers, results, t, i))
  }

  /** The whole copied report: the header, then the block of every question
      in question order. */
  function ReportText(questions: seq<QuizQuestion>, answers: map<int, string>, results: seq<EvaluationResult>,
                      pageTitle: Option<string>, t: string -> string): string
    requires |questions| <= |results|
  {
    ReportHeader(questions, results, pageTitle, t) + Concat(ReportEntries(questions, answers, results, t))
  }

  /** The report opens with its header and then lists the questions in
      order: for every `n`, the header followed by the blocks of the first
      `n` questions is a prefix of it. */
  lemma ReportInQuestionOrder(questions: seq<QuizQuestion>, answers: map<int, string>, results: seq<EvaluationResult>,
                              pageTitle: Option<string>, t: string -> string, n: nat)
    requires |questions| <= |results| && n <= |questions|
    ensures StartsWith(ReportText(questions, answers, results, pageTitle, t),
                       ReportHeader(questions, results, pageTitle, t)
                       + Concat(ReportEntries(questions, answers, results, t)[..n]))
  {
    var blocks := ReportEntries(questions, answers, results, t);
    ConcatPrefix(blocks, n);
    PrefixPrepend(ReportHeader(questions, results, pageTitle, t), Concat(blocks), Concat(blocks[..n]));
  }

  /** The block of question `i` starts by naming the question, numbered
      from 1. */
  lemma EntryNamesQuestion(questions: seq<QuizQuestion>, answers: map<int, string>, results: seq<EvaluationResult>,
                           t: string -> string, i: nat)
    requires i < |questions| && i < |results|
    ensures StartsWith(ReportEntry(questions, answers, results, t, i),
                       "Pregunta " + IntToString(i + 1) + ": " + questions[i].question + "\n")
  {
    var title := "Pregunta " + IntToString(i + 1) + ": " + questions[i].question + "\n";
    var s := title;
    assert StartsWith(s, title);
    PrefixExtend(s, title, t("yourAnswer"));
    s := s + t("yourAnswer");
    PrefixExtend(s, title, " ");
    s := s + " ";
    PrefixExtend(s, title, AnswerOr(answers, i, t("noAnswerProvided")));
    s := s + AnswerOr(answers, i, t("noAnswerProvided"));
    PrefixExtend(s, title, "\n");
    s := s + "\n";
    PrefixExtend(s, title, t("idealAnswer"));
    s := s + t("idealAnswer");
    PrefixExtend(s, title, " ");
    s := s + " ";
    PrefixExtend(s, title, questions[i].idealAnswer);
    s := s + questions[i].idealAnswer;
    PrefixExtend(s, title, "\n");
    s := s + "\n";
    PrefixExtend(s, title, "Puntuación: ");
    s := s + "Puntuación: ";
    PrefixExtend(s, title, IntToString(results[i].score));
    s := s + IntToString(results[i].score);
    PrefixExtend(s, title, "/5\n");
    s := s + "/5\n";
    PrefixExtend(s, title, t("aiFeedback"));
    s := s + t("aiFeedback");
    PrefixExtend(s, title, " ");
    s := s + " ";
    PrefixExtend(s, title, results[i].feedback);
    s := s + results[i].feedback;
    PrefixExtend(s, title, "\n\n");
    s := s + "\n\n";
    assert s == ReportEntry(questions, answers, results, t, i);
  }

  /** The lines the report starts with. */
  method FormatHeader(questions: seq<QuizQuestion>, results: seq<EvaluationResult>,
                      pageTitle: Option<string>, t: string -> string)
    returns (header: string)
    ensures header == ReportHeader(questions, results, pageTitle, t)
  {
    var totalScore := TotalScore(results);
    var maxScore := |questions| * 5;
    header := t("quizResults") + " para: " + OrElse(pageTitle, t("thisDocument")) + "\n";
    header := header + "Puntuación Total: " + IntToString(totalScore) + " / " + IntToString(maxScore) + "\n";
    header := header + "------------------------------------\n\n";
  }

  /** The lines the report loop appends for question `i`. */
  method FormatEntry(questions: seq<QuizQuestion>, answers: map<int, string>, results: seq<EvaluationResult>,
                     t: string -> string, i: nat)
    returns (block: string)
    requires i < |questions| && i < |results|
    ensures block == ReportEntry(questions, answers, results, t, i)
  {
    var result := results[i];
    var userAnswer := AnswerOr(answers, i, t("noAnswerProvided"));
    block := "Pregunta " + IntToString(i + 1) + ": " + questions[i].question + "\n";
    block := block + t("yourAnswer") + " " + userAnswer + "\n";
    block := block + t("idealAnswer") + " " + questions[i].idealAnswer + "\n";
    block := block + "Puntuación: " + IntToString(result.score) + "/5\n";
    block := block + t("aiFeedback") + " " + result.feedback + "\n\n";
  }

  /** `formatResultsForCopy`: the header, then the block of every
      question appended in question order. */
  method FormatResultsForCopy(questions: seq<QuizQuestion>, answers: map<int, string>,
                              results: seq<EvaluationResult>, pageTitle: Option<string>,
                              t: string -> string)
    returns (report: string)
    requires |questions| <= |results|
    ensures report == ReportText(questions, answers, results, pageTitle, t)
  {
    report := FormatHeader(questions, results, pageTitle, t);
    ghost var header := report;
    ghost var blocks := ReportEntries(questions, answers, results, t);
    var index := 0;
    while index < |questions|
      invariant 0 <= index <= |questions|
      invariant report == header + Concat(blocks[..index])
    {
      var block := FormatEntry(questions, answers, results, t, index);
      ConcatStep(header, report, blocks, index, block);
      report := report + block;
      index := index + 1;
    }
    assert blocks[..index] == blocks;
  }

  class QuizGenerator {
    var view: View
    var questions: seq<QuizQuestion>
    var userAnswers: map<int, string>
    var evaluationResults: seq<EvaluationResult>
    var currentQuestionIndex: int
    var error: Option<string>
    /** Whether the model client exists (`ai` is set). */
    const hasClient: bool

    /** Outside answering the index rests at 0; while a quiz is on screen
        there is at least one question and the index points at one of them;
        the results view has one grade per question. */
    ghost predicate Valid()
      reads this
    {
      && (view == Idle || view == Generating ==> currentQuestionIndex == 0)
      && (view == Answering || view == Evaluating || view == Results ==>
            |questions| > 0 && 0 <= currentQuestionIndex < |questions|)
      && (view == Results ==> |evaluationResults| == |questions|)
    }

    constructor (hasClient: bool)
      ensures Valid()
      ensures view == Idle && questions == [] && userAnswers == map[] && evaluationResults == []
      ensures currentQuestionIndex == 0 && error == None && this.hasClient == hasClient
    {
      view := Idle;
      questions := [];
      userAnswers := map[];
      evaluationResults := [];
      currentQuestionIndex := 0;
      error := None;
      this.hasClient := hasClient;
    }

    /** The synchronous start of `handleGenerateQuiz` (offered only in the
        idle view): without a client or page content nothing happens;
        otherwise the generating view opens with the error cleared. */
    method BeginGeneration(pageContent: Option<string>) returns (started: bool)
      requires Valid() && view == Idle
      modifies this`view, this`error
      ensures Valid()
      ensures started == (hasClient && Present(pageContent))
      ensures started ==> view == Generating && error == None
      ensures !started ==> view == old(view) && error == old(error)
    {
      if !hasClient || !(pageContent.Some? && pageContent.value != "") {
        return false;
      }
      view := Generating;
      error := None;
      started := true;
    }

    /** `handleGenerateQuiz` after the call: `parsed` is the outcome of the
        call and of parsing its JSON, with the `questions` field if present.
        A throw, or a missing or empty question list, returns to idle with the
        error set; otherwise the questions are stored and answering begins at
        the first question. */
    method GenerationArrived(parsed: Result<Option<seq<QuizQuestion>>, Thrown>)
      requires Valid() && view == Generating
      modifies this`view, this`error, this`questions
      ensures Valid()
      ensures parsed.Err? ==> view == Idle && questions == old(questions)
                              && error == Some(FailureMessage(GenerateErrorPrefix, parsed.error))
      ensures parsed.Ok? && (parsed.value.None? || parsed.value.value == []) ==>
                view == Idle && questions == old(questions)
                && error == Some(GenerateErrorPrefix + NoQuestionsMessage)
      ensures parsed.Ok? && parsed.value.Some? && parsed.value.value != [] ==>
                view == Answering && questions == parsed.value.value && error == old(error)
                && currentQuestionIndex == 0
    {
      if parsed.Err? {
        error := Some(FailureMessage(GenerateErrorPrefix, parsed.error));
        view := Idle;
        return;
      }
      if parsed.value.None? || |parsed.value.value| == 0 {
        error := Some(FailureMessage(GenerateErrorPrefix, Error(NoQuestionsMessage)));
        view := Idle;
        return;
      }
      questions := parsed.value.value;
      view := Answering;
    }

    /** `handleAnswerChange(text)`: records the answer to the current
        question, leaving every other answer as it was. */
    method HandleAnswerChange(text: string)
      requires Valid() && view == Answering
      modifies this`userAnswers
      ensures Valid()
      ensures userAnswers == old(userAnswers)[currentQuestionIndex := text]
      ensures forall k :: k != currentQuestionIndex ==>
                (k in userAnswers <==> k in old(userAnswers))
                && (k in userAnswers ==> userAnswers[k] == old(userAnswers)[k])
    {
      userAnswers := userAnswers[currentQuestionIndex := text];
    }

    /** The "previous" button, disabled at the first question. */
    method PreviousQuestion()
      requires Valid() && view == Answering && currentQuestionIndex != 0
      modifies this`currentQuestionIndex
      ensures Valid()
      ensures currentQuestionIndex == old(currentQuestionIndex) - 1
    {
      currentQuestionIndex := currentQuestionIndex - 1;
    }

    /** The "next" button, shown instead of "submit" on every question but
        the last. */
    method NextQuestion()
      requires Valid() && view == Answering && currentQuestionIndex != |questions| - 1
      modifies this`currentQuestionIndex
      ensures Valid()
      ensures currentQuestionIndex == old(currentQuestionIndex) + 1
    {
      currentQuestionIndex := currentQuestionIndex + 1;
    }

    /** The synchronous start of `handleEvaluateAnswers`: without a client
        nothing happens; otherwise grading starts with the error cleared, and
        one request per question is returned, in question order. */
    method BeginEvaluation() returns (requests: Option<seq<EvaluationRequest>>)
      requires Valid() && view == Answering
      modifies this`view, this`error
      ensures Valid()
      ensures !hasClient ==> requests == None && view == old(view) && error == old(error)
      ensures hasClient ==> requests == Some(EvaluationRequests(questions, userAnswers))
                            && view == Evaluating && error == None
    {
      if !hasClient {
        return None;
      }
      view := Evaluating;
      error := None;
      requests := Some(EvaluationRequests(questions, userAnswers));
    }

    /** `handleEvaluateAnswers` once every grading call has settled:
        `outcomes[i]` is the outcome of the call and the JSON parse for the
        request of question `i`, each call independent of the others. If
        every call succeeds, the results are stored in question order and the
        results view opens. If any fails, answering resumes with the error
        set and the questions and answers kept. */
    method EvaluationArrived(outcomes: seq<Result<EvaluationResult, Thrown>>)
      requires Valid() && view == Evaluating
      requires |outcomes| == |questions|
      modifies this`view, this`error, this`evaluationResults
      ensures Valid()
      ensures questions == old(questions) && userAnswers == old(userAnswers)
      ensures (forall i :: 0 <= i < |outcomes| ==> outcomes[i].Ok?) ==>
                && view == Results && error == old(error)
                && |evaluationResults| == |questions|
                && forall i :: 0 <= i < |questions| ==> outcomes[i] == Ok(evaluationResults[i])
      ensures (exists i :: 0 <= i < |outcomes| && outcomes[i].Err?) ==>
                && view == Answering && evaluationResults == old(evaluationResults)
                && exists i :: 0 <= i < |outcomes| && outcomes[i].Err?
                               && error == Some(FailureMessage(EvaluateErrorPrefix, outcomes[i].error))
    {
      var results := Gather(outcomes);
      if results.Err? {
        error := Some(FailureMessage(EvaluateErrorPrefix, results.error));
        view := Answering;
        return;
      }
      evaluationResults := results.value;
      view := Results;
    }

    /** `resetQuiz`: back to an empty idle quiz. */
    method ResetQuiz()
      requires Valid()
      modifies this
      ensures Valid()
      ensures view == Idle && questions == [] && userAnswers == map[] && evaluationResults == []
      ensures currentQuestionIndex == 0 && error == None
    {
      view := Idle;
      questions := [];
      userAnswers := map[];
      evaluationResults := [];
      currentQuestionIndex := 0;
      error := None;
    }
  }
}
