# AI reading aids of a documentation site, modelled in Dafny

This project models the logic of a React documentation site. It covers the
five AI reading aids that sit beside each document, plus two helpers of the
page chrome:

- **Podcast generator.** It writes a script, then has it voiced. Raw PCM
  audio that comes back is framed as a WAVE file (the WAVE form of RIFF,
  from the Multimedia Programming Interface and Data Specifications 1.0,
  with one `fmt ` chunk in the WAVE_FORMAT_PCM category and one `data`
  chunk).
- **Quiz.** It generates open questions, takes answers with navigation
  between them, and grades each answer with one model call. It computes
  totals and builds a plain-text report.
- **Glossary.** The terms come back from the model and are sorted by term.
  The glossary has a copy format.
- **Concept simplifier.** It returns a concept and an analogy. The result
  has a copy format.
- **Summarizer.** It shows a trimmed summary.
- **Search box.** It turns a clicked result's path into a route. It opens
  and closes the result list.
- **Code block.** It provides:
  - the language named by the `language-…` class;
  - the number of line numbers to draw;
  - the copy, line-number, full-screen and wheel-zoom toolbar.

How the model is organised:

- Each component's state is a Dafny `class` whose fields are the
  component's state variables. Each handler is a method that updates them.
- An `async` handler is split at each `await` into a method for the
  synchronous start and one method per awaited call. That method takes the
  call's outcome as a parameter.
- The model call, `JSON.parse` and `atob` count as oracles. Each of their
  outcomes is a `Result` value: the value, or what was thrown.
- Pure helpers become functions, and their properties are lemmas.

Module layout, one file per module:

- `outcomes.dfy`: `Option`, `Result` and what a `catch` turns a throw into.
- `text.dfy`: the JavaScript string operations used (`trim`,
  `toUpperCase`, `split`, `join`, number to string).
- `wav.dfy`: `pcmToWav`.
- `podcast.dfy`, `quiz.dfy`, `glossary.dfy`, `simplifier.dfy`,
  `summarizer.dfy`, `search_bar.dfy`, `code_block.dfy`: one per component.

## Model

| member | source | states |
|---|---|---|
| Wav.Uint32RoundTrip | components/GeminiPodcastGenerator.tsx:37 | reading a little-endian 32-bit field back gives the value written, modulo 2^32 |
| Wav.Uint16RoundTrip | components/GeminiPodcastGenerator.tsx:41 | the same for 16-bit fields, modulo 2^16 |
| Wav.TagConstants | components/GeminiPodcastGenerator.tsx:36-47 | the four big-endian constants written are the ASCII chunk tags "RIFF", "WAVE", "fmt " and "data" |
| Wav.DefaultRates | components/GeminiPodcastGenerator.tsx:31-33 | with the defaults (24000 Hz, mono, 16 bits) the byte rate is 48000 and the block alignment is 2 |
| Wav.SetUint32 | components/GeminiPodcastGenerator.tsx:36-48 | a `DataView.setUint32` write changes exactly four bytes at the offset, in the requested byte order |
| Wav.SetUint16 | components/GeminiPodcastGenerator.tsx:41-46 | a `DataView.setUint16` write changes exactly two bytes at the offset |
| Wav.PcmToWav | components/GeminiPodcastGenerator.tsx:31-50 | the 44-byte buffer, filled field by field, followed by the samples and typed `audio/wav`, is exactly the WAVE file of the samples in the given format |
| Wav.Header | components/GeminiPodcastGenerator.tsx:34-48 | the 44 header bytes, field by field; their layout is WavLayout |
| Wav.WavFile | components/GeminiPodcastGenerator.tsx:49 | header then samples; read back by ParseWavFile |
| Wav.FieldSlices | components/GeminiPodcastGenerator.tsx:36-49 | where each header field lies in the produced file |
| Wav.WavLayout | components/GeminiPodcastGenerator.tsx:34-49 | the file is 44 + \|pcm\| bytes and bytes 44.. are the samples unchanged; offsets 0, 8, 12 and 36 hold the ASCII tags; u32@4 = 36 + \|pcm\| and u32@40 = \|pcm\|; u32@16 = 16 and u16@20 = 1 (PCM); channels, sample rate, byte rate, block alignment and sample width sit at 22, 24, 28, 32 and 34 (each modulo its width) |
| Wav.ParseWavFile | components/GeminiPodcastGenerator.tsx:31-50 | a WAVE reader applied to the output recovers the format, the derived rates and the samples exactly whenever every field fits its width |
| Podcast.WithField | components/GeminiPodcastGenerator.tsx:89 | replacing one field of a speaker leaves the other field as it was |
| Podcast.NamesValid | components/GeminiPodcastGenerator.tsx:97-98 | the pre-flight check that every active speaker has a non-blank name; its contract is NamesValidByStyle |
| Podcast.NamesValidByStyle | components/GeminiPodcastGenerator.tsx:97-98 | the pre-flight name check looks only at the first speaker for a monologue, and at every speaker for a dialogue |
| Podcast.BuildSpeechConfig | components/GeminiPodcastGenerator.tsx:140-148 | the speech configuration of the audio call; its contract is SpeechConfigShape |
| Podcast.SpeechConfigShape | components/GeminiPodcastGenerator.tsx:140-148 | monologue: one voice, the first speaker's; dialogue: every speaker in order, labelled by the trimmed upper-cased name (already trimmed, and non-blank once the names pass the check), with that speaker's voice; every voice tagged es-ES |
| Podcast.EffectiveMime | components/GeminiPodcastGenerator.tsx:163 | never empty: the declared type when it is non-empty, otherwise `audio/wav` |
| Podcast.BlobType | components/GeminiPodcastGenerator.tsx:165 | the type `new Blob` records: "" when some character lies outside U+0020–U+007E, otherwise the same length with every character ASCII-lowercased |
| Podcast.BlobTypeNormal | components/GeminiPodcastGenerator.tsx:165 | normalising a recorded type again changes nothing, and a printable type without capitals is kept |
| Podcast.AudioBlob | components/GeminiPodcastGenerator.tsx:163-165 | the blob chosen by the type dispatch; its contract is AudioBlobSpec |
| Podcast.AudioBlobSpec | components/GeminiPodcastGenerator.tsx:163-165 | a type starting with `audio/L16` gives an `audio/wav` blob of 44 + n bytes that holds the samples and parses as 24000 Hz mono 16-bit; any other type keeps the bytes, and the blob's type is the declared one (an absent or empty type counting as `audio/wav`) as the `Blob` constructor normalises it |
| Podcast.UpperCaseTypeLowered | components/GeminiPodcastGenerator.tsx:165 | a payload declared `audio/MPEG` is kept under the type `audio/mpeg` |
| Podcast.PcmPayloadExample | components/GeminiPodcastGenerator.tsx:163-165 | a 2400-byte `audio/L16;rate=24000` payload becomes a 2444-byte `audio/wav` blob |
| Podcast.AssembleAudio | components/GeminiPodcastGenerator.tsx:163-165 | the blob built from the MIME dispatch, calling `pcmToWav` for raw samples, is `AudioBlob` |
| Podcast.PodcastGenerator.constructor | components/GeminiPodcastGenerator.tsx:58-66 | starts idle in dialogue style with NARRADOR/Kore and EXPERTO/Puck, no script, no audio, no error |
| Podcast.PodcastGenerator.Revoke | components/GeminiPodcastGenerator.tsx:82 | `URL.revokeObjectURL` takes exactly that URL out of the live set |
| Podcast.PodcastGenerator.SetAudioUrl | components/GeminiPodcastGenerator.tsx:80-84 | changing the audio URL revokes the previous one |
| Podcast.PodcastGenerator.HandleSpeakerChange | components/GeminiPodcastGenerator.tsx:86-92 | only the given field of the given speaker changes; every other speaker is untouched |
| Podcast.PodcastGenerator.BeginGenerate | components/GeminiPodcastGenerator.tsx:94-107 | with no client or no page content, nothing changes; a blank active name sets only the speaker-name error (view, script and audio kept, no call made); otherwise the script phase starts with the error and script cleared and the URL revoked and dropped |
| Podcast.PodcastGenerator.Fail | components/GeminiPodcastGenerator.tsx:169-173 | a throw ends idle with the prefixed message, or the retry hint when the throw is not an `Error` |
| Podcast.PodcastGenerator.ScriptArrived | components/GeminiPodcastGenerator.tsx:124-149 | a throw or a blank script ends idle with the error set; otherwise the trimmed script is stored, the audio phase starts and the audio call carries the script and the speech configuration of the captured settings |
| Podcast.PodcastGenerator.AudioArrived | components/GeminiPodcastGenerator.tsx:151-173 | a throw, a missing inline part or missing data (the error quoting the response), or undecodable data ends idle with the error set and the audio untouched; otherwise a fresh URL for the assembled blob replaces the old one and results open |
| Podcast.PodcastGenerator.Reset | components/GeminiPodcastGenerator.tsx:176-182 | idle with script, error and URL cleared, the URL revoked first, so no URL stays live |
| Podcast.PodcastGenerator.IsOpenChanged | components/GeminiPodcastGenerator.tsx:184 | closing the dialog resets it; opening changes nothing |
| Quiz.AnswerOr | components/GeminiQuizGenerator.tsx:145 | the typed answer when there is a non-empty one, otherwise the fallback |
| Quiz.EvaluationRequests | components/GeminiQuizGenerator.tsx:144-150 | one grading request per question in question order, carrying the question, its ideal answer and the answer or the placeholder "No se proporcionó respuesta." |
| Quiz.Gather | components/GeminiQuizGenerator.tsx:170-173 | success exactly when every call succeeds, with each result in its call's position; otherwise a failure of some call, all earlier ones having succeeded |
| Quiz.TotalScore | components/GeminiQuizGenerator.tsx:196 | the sum of the scores; its contracts are TotalScoreAppend and TotalScoreBounds |
| Quiz.MaxScore | components/GeminiQuizGenerator.tsx:197 | five points per question; bounded against the total by TotalScoreBounds |
| Quiz.TotalScoreAppend | components/GeminiQuizGenerator.tsx:196 | the total score adds up over concatenation |
| Quiz.TotalScoreBounds | components/GeminiQuizGenerator.tsx:196-197 | with one grade in 0..5 per question, 0 ≤ total ≤ maxScore = 5·\|questions\| |
| Quiz.ReportEntries | components/GeminiQuizGenerator.tsx:45-53 | one report block per question, block i being question i's |
| Quiz.ReportText | components/GeminiQuizGenerator.tsx:31-56 | the whole report, the header then every question's block; its contract is ReportInQuestionOrder |
| Quiz.ReportInQuestionOrder | components/GeminiQuizGenerator.tsx:31-56 | the report is the header followed by the question blocks in order: the header plus the first n blocks is a prefix of it for every n |
| Quiz.EntryNamesQuestion | components/GeminiQuizGenerator.tsx:46 | block i opens with "Pregunta i+1: " and the question |
| Quiz.FormatResultsForCopy | components/GeminiQuizGenerator.tsx:31-56 | the `report +=` loop yields exactly the header followed by every question's block in question order |
| Quiz.QuizGenerator.constructor | components/GeminiQuizGenerator.tsx:63-69 | starts as an empty idle quiz at index 0 |
| Quiz.QuizGenerator.BeginGeneration | components/GeminiQuizGenerator.tsx:84-87 | without a client or page content nothing changes; otherwise generating with the error cleared |
| Quiz.QuizGenerator.GenerationArrived | components/GeminiQuizGenerator.tsx:117-132 | a throw or a missing or empty question list ends idle with the error and the questions kept; otherwise the questions are stored and answering starts at question 0 |
| Quiz.QuizGenerator.HandleAnswerChange | components/GeminiQuizGenerator.tsx:191-193 | only the current question's answer is set; every other key keeps its presence and value |
| Quiz.QuizGenerator.PreviousQuestion | components/GeminiQuizGenerator.tsx:231-233 | moves back by one; disabled at 0, so the index stays in range |
| Quiz.QuizGenerator.NextQuestion | components/GeminiQuizGenerator.tsx:234-241 | moves forward by one; offered only before the last question, so the index stays in range |
| Quiz.QuizGenerator.BeginEvaluation | components/GeminiQuizGenerator.tsx:135-150 | without a client nothing changes; otherwise evaluating with the error cleared, issuing one request per question in order |
| Quiz.QuizGenerator.EvaluationArrived | components/GeminiQuizGenerator.tsx:144-179 | given the outcome of each question's independent grading call, by position: if all succeed, result i is question i's own grade, one per question, and the results view opens; if any fails, answering resumes with some failed call's message, results, questions and answers kept |
| Quiz.QuizGenerator.ResetQuiz | components/GeminiQuizGenerator.tsx:182-189 | idle with no questions, answers or results, index 0 and no error |
| Glossary.StrLeTotal | components/GeminiGlossaryGenerator.tsx:92 | code-point order relates any two strings |
| Glossary.StrLeTransitive | components/GeminiGlossaryGenerator.tsx:92 | code-point order is transitive |
| Glossary.StrLeAntisymmetric | components/GeminiGlossaryGenerator.tsx:92 | code-point order is antisymmetric |
| Glossary.StrLeIsTotalPreorder | components/GeminiGlossaryGenerator.tsx:92 | code-point order is a comparator of the kind the sort is given |
| Glossary.SortByTerm | components/GeminiGlossaryGenerator.tsx:91-94 | the in-place sort leaves the array sorted by term under the comparator and a permutation of what it held |
| Glossary.Insert | components/GeminiGlossaryGenerator.tsx:91-94 | one insertion step extends the sorted prefix by one element, preserving the multiset |
| Glossary.FormatGlossaryForCopy | components/GeminiGlossaryGenerator.tsx:24-26 | the copy is "" exactly when the glossary is empty, and otherwise opens with the first term, a newline and its definition |
| Glossary.CopyCons | components/GeminiGlossaryGenerator.tsx:24-26 | the copy of several entries is the first "term\ndefinition", a blank line, and the copy of the rest |
| Glossary.CopyAppend | components/GeminiGlossaryGenerator.tsx:24-26 | copying one more entry appends a blank line and that entry |
| Glossary.CopyRoundTrip | components/GeminiGlossaryGenerator.tsx:24-26 | splitting the copy at newlines and reading term/definition/blank triples gives the glossary back (single-line fields) |
| Glossary.GlossaryGenerator.constructor | components/GeminiGlossaryGenerator.tsx:31-33 | starts idle with an empty glossary and no error |
| Glossary.GlossaryGenerator.BeginGeneration | components/GeminiGlossaryGenerator.tsx:49-52 | without a client or page content nothing changes; otherwise generating with the error cleared; also offered from results |
| Glossary.GlossaryGenerator.GenerationArrived | components/GeminiGlossaryGenerator.tsx:84-100 | a throw or a missing or empty list ends idle with the error set, never results with zero items; otherwise the stored glossary is a permutation of the returned list sorted by term |
| Glossary.GlossaryGenerator.Reset | components/GeminiGlossaryGenerator.tsx:103-107 | idle with an empty glossary and no error |
| Glossary.GlossaryGenerator.IsOpenChanged | components/GeminiGlossaryGenerator.tsx:110-114 | closing the dialog resets it; opening changes nothing |
| Simplifier.FormatSimplificationForCopy | components/GeminiSimplifier.tsx:25-28 | "" exactly when there is no result; otherwise starts with "Concepto: " and ends with the explanation |
| Simplifier.CopyRoundTrip | components/GeminiSimplifier.tsx:25-28 | a copied result with a one-line concept reads back as that result |
| Simplifier.Validate | components/GeminiSimplifier.tsx:86-88 | accepts exactly when both fields are present and non-empty, and then keeps them |
| Simplifier.ConceptSimplifier.constructor | components/GeminiSimplifier.tsx:34-36 | starts idle with no result and no error |
| Simplifier.ConceptSimplifier.BeginSimplify | components/GeminiSimplifier.tsx:52-55 | without a client or content nothing changes; otherwise simplifying with the error cleared; also offered from results |
| Simplifier.ConceptSimplifier.SimplifyArrived | components/GeminiSimplifier.tsx:84-97 | a throw or a missing or empty field ends idle with the error set; otherwise the result is stored and results open |
| Simplifier.ConceptSimplifier.Reset | components/GeminiSimplifier.tsx:100-104 | idle with no result and no error |
| Simplifier.ConceptSimplifier.IsOpenChanged | components/GeminiSimplifier.tsx:106-110 | closing the dialog resets it; opening changes nothing |
| Summarizer.SummaryOf | components/GeminiSummarizer.tsx:58-62 | no summary exactly when the reply is blank; otherwise the trimmed reply, which is non-empty and has no surrounding whitespace |
| Summarizer.SummaryGenerator.constructor | components/GeminiSummarizer.tsx:22-24 | starts idle with no summary and no error |
| Summarizer.SummaryGenerator.BeginGeneration | components/GeminiSummarizer.tsx:40-43 | without a client or content nothing changes; otherwise generating with the error cleared |
| Summarizer.SummaryGenerator.GenerationArrived | components/GeminiSummarizer.tsx:58-71 | a throw or a blank reply ends idle with the error set; otherwise the summary is the trimmed reply and results open |
| Summarizer.SummaryGenerator.Reset | components/GeminiSummarizer.tsx:74-78 | idle with no summary and no error |
| Summarizer.SummaryGenerator.IsOpenChanged | components/GeminiSummarizer.tsx:81-85 | closing the dialog resets it; opening changes nothing |
| SearchBar.StripMd | components/SearchBar.tsx:65 | one trailing ".md" is removed, and a path without one is kept |
| SearchBar.PathPart | components/SearchBar.tsx:63 | the longest prefix without '#': a prefix of the input, free of '#', followed by '#' or the end |
| SearchBar.AnchorPart | components/SearchBar.tsx:63 | none exactly when there is no '#'; otherwise the longest '#'-free prefix of what follows the first '#' |
| SearchBar.ResultRoute | components/SearchBar.tsx:61-68 | the route always begins with "/" |
| SearchBar.RouteWithoutAnchor | components/SearchBar.tsx:63-65 | a path without '#' goes to "/" and the path minus its trailing ".md" |
| SearchBar.RouteWithAnchor | components/SearchBar.tsx:63-68 | "path#anchor" with a non-empty anchor goes to "/" + path minus ".md" + "#anchor" |
| SearchBar.EmptyAnchorIgnored | components/SearchBar.tsx:66-68 | a trailing '#' with an empty anchor adds nothing |
| SearchBar.ExtraSegmentsIgnored | components/SearchBar.tsx:63 | everything after a second '#' is dropped |
| SearchBar.SearchBox.constructor | components/SearchBar.tsx:23-25 | starts with an empty query, no results and the list closed |
| SearchBar.SearchBox.SetQuery | components/SearchBar.tsx:85 | typing sets the query |
| SearchBar.SearchBox.Focus | components/SearchBar.tsx:86 | focusing opens the list |
| SearchBar.SearchBox.DebouncedQueryChanged | components/SearchBar.tsx:34-40 | an empty debounced query gives no results; any other gives the index's results for it |
| SearchBar.SearchBox.MouseDown | components/SearchBar.tsx:42-46 | a mouse-down outside the box closes the list; inside, nothing changes |
| SearchBar.SearchBox.LocationChanged | components/SearchBar.tsx:55-59 | a route change closes the list and clears the query |
| SearchBar.SearchBox.HandleResultClick | components/SearchBar.tsx:61-73 | the route built with `let` and `+=` is `ResultRoute`; afterwards the query is empty, the list is closed and no results show |
| CodeBlock.FirstMatch | components/CodeBlock.tsx:9 | the leftmost position where `language-` and a word character occur, or none |
| CodeBlock.WordRun | components/CodeBlock.tsx:9 | the greedy `\w+`: a run of word characters not followed by another |
| CodeBlock.LeftmostUnique | components/CodeBlock.tsx:9 | there is at most one leftmost match |
| CodeBlock.GetLanguage | components/CodeBlock.tsx:8-11 | never empty; "text" when no `language-` is followed by a word character, including a missing or empty class; otherwise the maximal run of word characters right after the leftmost such `language-` |
| CodeBlock.LanguageOfClass | components/CodeBlock.tsx:8-11 | a class `before` + `language-w` + `rest`, with w a word, `rest` empty or starting with a non-word character and no match inside `before`, names the language w |
| CodeBlock.LanguageAfterOtherClass | components/CodeBlock.tsx:8-11 | the class `hljs language-ts` names `ts` |
| CodeBlock.LanguageIsWord | components/CodeBlock.tsx:8-11 | the language is "text" or made only of word characters |
| CodeBlock.LineCount | components/CodeBlock.tsx:32-34 | the pieces at '\n' minus an empty last one; its contract is LineCountByNewlines |
| CodeBlock.LineCountByNewlines | components/CodeBlock.tsx:32-34 | the line count is the number of '\n', plus one when the text does not end in '\n' |
| CodeBlock.FinalNewlineAddsNoLine | components/CodeBlock.tsx:32-34 | ending the last line with '\n' adds no line |
| CodeBlock.EmptyCodeHasOneLine | components/CodeBlock.tsx:32-34 | empty code shows one line number |
| CodeBlock.ClampFontSize | components/CodeBlock.tsx:138 | the result lies in [8, 32]; sizes inside are kept, and sizes below or above go to the nearer bound |
| CodeBlock.ClampMonotone | components/CodeBlock.tsx:138 | clamping keeps the order of sizes |
| CodeBlock.CodeBlockState.constructor | components/CodeBlock.tsx:111-114 | starts not copied, without line numbers, not full screen, at 14 px |
| CodeBlock.CodeBlockState.HandleCopy | components/CodeBlock.tsx:121-127 | non-empty text goes to the clipboard and the copied mark is set; otherwise nothing happens |
| CodeBlock.CodeBlockState.CopiedTimeout | components/CodeBlock.tsx:125 | the timer clears the copied mark |
| CodeBlock.CodeBlockState.ToggleLineNumbers | components/CodeBlock.tsx:129 | the flag is negated, so toggling twice restores it |
| CodeBlock.CodeBlockState.ToggleFullscreen | components/CodeBlock.tsx:130 | the flag is negated, so toggling twice restores it |
| CodeBlock.CodeBlockState.HandleWheel | components/CodeBlock.tsx:132-141 | with Shift, the default is prevented and the size becomes the clamp of size − deltaY·0.1, always within [8, 32]; without Shift nothing changes |

## Left out

- The model calls, `JSON.parse` and `atob` are not modelled. Each becomes a
  parameter holding the value it produced or what it threw. Base64 decoding
  itself is not modelled.
- Prompts, system instructions, response schemas and model names are not
  modelled. They only shape what the oracle returns.
- The translation lookup `t` is a parameter of the quiz report. The
  podcast's speaker-name error is stored as its translation key.
- Podcast.PodcastGenerator: object URLs are modelled by a serial number and
  a ghost set of live URLs. `URL.createObjectURL`, `URL.revokeObjectURL` and
  `Blob` are browser resources.
- Podcast.PodcastGenerator.HandleSpeakerChange requires `index` to be a
  speaker's index. The source's spread would create a new slot for any
  other index, but the two inputs only ever pass 0 and 1.
- `setStyle` (the style toggle) is modelled by SetStyle, whose only effect
  is to set the style.
- Podcast.AudioBlob ignores the rate parameter of `audio/L16;rate=…` and
  always frames at 24000 Hz mono 16-bit. This is what the code does.
- Wav: JavaScript numbers are taken as unbounded integers. Each
  `setUint32`/`setUint16` reduces its value modulo 2^32 or 2^16, as
  `DataView` does. Fractional byte rates, from a sample width that is not a
  multiple of 8, are not modelled.
- Quiz.Gather: it is modelled as a sequential map. `Promise.all` runs the
  calls concurrently and rejects with the failure that happens first in
  time. The model reports the first failure by position. Either way some
  failing call's message is shown, which is what EvaluationArrived states.
- Quiz.FormatResultsForCopy requires at least as many grades as questions.
  The source reads `evaluationResults[index].score` and would throw
  otherwise. It is only called from the results view, where the counts are
  equal.
- Quiz.TotalScore: scores are taken as integers. A grade whose JSON
  `score` is fractional (3.5), and the way such a number prints in the
  report, are not modelled.
- The average score (`toFixed(1)`) is floating-point formatting and is not
  modelled.
- Glossary: `localeCompare` is taken as a given total preorder
  (`termLe`). Code-point order is proved to be one.
- Glossary.SortByTerm: stability is not stated. `Array.prototype.sort` is
  stable, but only sortedness and permutation matter here.
- Text.ToUpper maps ASCII and Latin-1 letters only, the micro sign µ
  going to Greek capital mu (U+039C). It does not model multi-character
  mappings such as ß → SS, or scripts beyond Latin-1.
- CodeBlock.CodeBlockState.HandleWheel: sizes and `deltaY` are reals, not
  IEEE doubles.
- Timers are not modelled: the 300 ms delayed reset on close, the
  2000 ms copied-mark timer and the search debounce. Their firing is
  modelled as a separate call (IsOpenChanged, CopiedTimeout,
  DebouncedQueryChanged).
- No handler guards against a reply that arrives after a reset. The
  quiz, glossary, simplifier and summarizer continuations require the view
  their call started from, so such a late write is not modelled for them.
  Podcast.PodcastGenerator.ScriptArrived and AudioArrived require only the
  class invariant: like the source's unguarded writes, they may run in any
  view, a late reply included.
- Quiz.QuizGenerator.BeginEvaluation does not require the last question to
  be on screen. The submit button appears only there, but the source's
  handler has no such check.
- Reset idempotence and toggle-twice are not separate lemmas. Each
  method's ensures fixes the whole new state, so both follow directly.
- Not part of this model:
  - client construction and its `geminiInitError`;
  - React rendering, portals and effect wiring;
  - the clipboard API;
  - Header, Icons, AboutModal, FloatingActionBar, CopyButton, Mermaid and
    the bootstrap;
  - `constants.ts`, the build configuration and the manifest script.
