# CV-to-role analyser: a Dafny model of its request/response core

The analyser reads a CV (a PDF) and a job-role description (a text file).
It sends both texts to a large language model in a four-part prompt. It
reads a JSON object out of the model's free-text reply and normalises it
into a report with three fields: `match_score`, `skill_gaps` and
`recommendations`. This project models that chain and proves its
behaviour:

- `values.dfy` (module `Values`) holds the Python values the chain passes
  around: decoded JSON (`Json`, `Dict`), `None` (`Option`), Python's `len`,
  and an `Outcome` that says whether a call returned or raised.
- `llm.dfy` (module `Llm`) models `LLMClient`:
  - prompt construction. `Content` is a class because `_refine_prompt`
    appends to the parts of a deep copy in place.
  - the brace-region search of the reply.
  - `_call_llm_api`. Everything outside the process is an explicit
    `Runtime` value: the API key, the remote model, `json.loads` and
    `str()` of a dict.
  - the retry policy of `analyze_match`. At most one refined request (the
    original prompt with a note and the first response appended) is sent
    after the first, and whatever comes back from it is returned without a
    check.
- `report.dfy` (module `Report`) models `AnalysisReport`: the dict read
  with defaults into three fields, and the fields written in a fixed order.
- `utils.dfy` (module `Utils`) models `RoleProcessor.process`, which is
  Python's `str.strip`, and `PDFProcessor.extract_text`, which keeps the
  non-empty page texts in order and joins them with single spaces.
- `cv_analyzer.dfy` (module `CvAnalyzer`) models `analyze_core`, which is
  analysis followed by the report. It also models `analyze_cli`: an early
  return on missing text, an output path that is a file, every exception
  caught and turned into the return value 1, and 0 on success. A message
  that standard output refuses also returns 1, after the result file has
  been written.

The retry check looks for the key `skill_gap`. The prompt asks for
`skill_gaps`, and the report reads `skill_gaps`. The model keeps this
mismatch exactly as the code has it, and `Llm.SchemaConformingResponseRetried`
proves what follows from it: a reply shaped exactly as the prompt asks is
always sent back for a second call. Because `skill_gap` is never present in
such a reply, the "gaps without recommendations" check never fires for it.

Behaviour the model makes explicit:

- `AnalysisReport(None)` raises `AttributeError` (its docstring at
  src/cv_to_role_analyzer/report.py:21-22 asks for a dict), so
  `analyze_core` raises when the analysis returns None, and `analyze_cli`
  returns 1.
- The docstrings of both readers promise to raise `FileNotFoundError` or
  `IOError` (src/cv_to_role_analyzer/utils.py:24-26 and 57-59), but the
  code catches both and returns None (utils.py:31-36 and 70-75). The model
  follows the code: a missing or unreadable CV or role file gives None,
  just like a PDF with no text.
- A PDF that the PDF library cannot parse raises out of `extract_text`.
  So does a role file that is not UTF-8, because `UnicodeDecodeError` is a
  `ValueError` and not an `IOError`. In both cases `analyze_cli` returns 1.
- `match_score` is copied as it is, with no clamping to 0–100 and no type
  check.

## Model

| member | source | states |
|---|---|---|
| `Llm.InstructionsNameSchemaKeys` | src/cv_to_role_analyzer/llm.py:81-83 | each key of the schema the model is asked for (`match_score`, `skill_gaps`, `recommendations`) appears, quoted as `repr` writes it, in the instructions |
| `Llm.GeneratePrompt` | src/cv_to_role_analyzer/llm.py:73-90 | exactly four parts in order: persona, instructions, `"CV Text: \n"` followed by the CV text verbatim, `"Role Description: \n"` followed by the role text verbatim |
| `Llm.GeneratePromptInjective` | src/cv_to_role_analyzer/llm.py:86-89 | both texts can be recovered from the prompt, so different inputs give different prompts |
| `Llm.RefinementParts` | src/cv_to_role_analyzer/llm.py:152-153 | the two appended parts: the "Ensure all required fields are included." note, then `"\nPrevious response: "` followed by `str(response)` (`ShowResponse`: `None` for a missing response, the given rendering of a dict otherwise) |
| `Llm.RefinePrompt` | src/cv_to_role_analyzer/llm.py:151-154 | returns a new `Content` whose parts are the original parts followed by the two refinement parts; the original request is unchanged |
| `Llm.FirstIndex` | src/cv_to_role_analyzer/llm.py:119 | position of the first occurrence of a character, or none exactly when it does not occur |
| `Llm.LastIndex` | src/cv_to_role_analyzer/llm.py:119 | position of the last occurrence of a character, or none exactly when it does not occur |
| `Llm.ExtractJsonRegion` | src/cv_to_role_analyzer/llm.py:119 | a match exists exactly when some `}` follows some `{`; a match starts with `{` and ends with `}` |
| `Llm.ExtractJsonRegionSpan` | src/cv_to_role_analyzer/llm.py:119 | the match is the substring from the first `{` to the last `}`, both included (greedy, DOTALL) |
| `Llm.CallLlmApi` | src/cv_to_role_analyzer/llm.py:105-137 | never raises: a missing or empty key and any remote error give None; with a key, a reply whose brace region exists gives exactly that region decoded (None when it does not decode); a dict comes back only that way |
| `Llm.Assess` | src/cv_to_role_analyzer/llm.py:51-57 | the first response is accepted exactly when it has the three checked keys, a sized `skill_gap`, and either no gaps or a sized non-empty `recommendations`; only `len`'s TypeError can be raised, and only after the key check passed (`Values.Len` is Python's `len`: the size of a string, list or object, and a TypeError for a number, boolean or null) |
| `Llm.AssessRetryIff` | src/cv_to_role_analyzer/llm.py:51-57 | a retry happens exactly when the response is None, lacks one of `match_score`/`skill_gap`/`recommendations`, or has a non-empty `skill_gap` with empty `recommendations` |
| `Llm.Analysis` | src/cv_to_role_analyzer/llm.py:47-59 | one or two calls, never more; the first request is the generated prompt; a second call happens exactly when the first response is judged for a retry |
| `Llm.AnalyzeMatch` | src/cv_to_role_analyzer/llm.py:35-59 | the step-by-step method returns exactly the outcome and the sequence of requests of `Analysis` |
| `Llm.IncompleteResponseRetriedOnce` | src/cv_to_role_analyzer/llm.py:51-53 | a None or incomplete first response causes exactly one more call, with the refined prompt, and its result is returned unchecked |
| `Llm.GapsWithoutRecommendationsRetriedOnce` | src/cv_to_role_analyzer/llm.py:55-57 | a complete response with a non-empty `skill_gap` and empty `recommendations` causes exactly one more call, and its result is returned |
| `Llm.ConsistentResponseReturnedUnchanged` | src/cv_to_role_analyzer/llm.py:55-59 | any other complete response is returned as it is, after one call |
| `Llm.UnsizedFieldRaises` | src/cv_to_role_analyzer/llm.py:55 | `len` of a number, boolean or null in `skill_gap` (or, after a non-empty `skill_gap`, in `recommendations`) raises TypeError after one call |
| `Llm.SchemaConformingResponseRetried` | src/cv_to_role_analyzer/llm.py:51 | a first response whose keys are exactly those the prompt asks for (`skill_gaps`, not `skill_gap`) always leads to a second call |
| `Llm.PromptSchemaFailsCheck` | src/cv_to_role_analyzer/llm.py:81-83 | a dict with exactly the prompt's schema keys never passes the completeness check |
| `Report.FromAnalysis` | src/cv_to_role_analyzer/report.py:24-26 | each field is the input's value under its key when present, and otherwise that key's default: 0 for `match_score`, `[]` for the two lists (`Report.Get` is `dict.get` with a default) |
| `Report.ToJson` | src/cv_to_role_analyzer/report.py:35-39 | the written object has exactly three members, named `match_score`, `skill_gaps`, `recommendations` in that order |
| `Report.ObjectOf` | src/cv_to_role_analyzer/report.py:35-39 | reading a written object back gives a dict whose keys are exactly the member names |
| `Report.Normalise` | src/cv_to_role_analyzer/report.py:24-39 | the report read back holds exactly the three keys, whatever the input held |
| `Report.NormaliseUnfolded` | src/cv_to_role_analyzer/report.py:24-39 | reading the written report back gives the dict of the three fields |
| `Report.NormalisedValue` | src/cv_to_role_analyzer/report.py:24-26 | each report key holds the input's value under that key, copied as it is, or the default (0, `[]`, `[]`) when the key is missing |
| `Report.EmptyInputGivesDefaults` | src/cv_to_role_analyzer/report.py:24-26 | `{}` gives `{match_score: 0, skill_gaps: [], recommendations: []}` |
| `Report.OtherKeysIgnored` | src/cv_to_role_analyzer/report.py:24-26 | adding or removing any other key, `skill_gap` included, does not change the report |
| `Report.RoundTrip` | tests/system/test_system.py:49-53 | a dict with exactly the three keys is read back unchanged |
| `Report.NormaliseIdempotent` | src/cv_to_role_analyzer/report.py:24-39 | normalising the normalised report changes nothing |
| `Utils.LeadingSpace` | src/cv_to_role_analyzer/utils.py:30 | the number of whitespace characters the text starts with: all of them are whitespace, and the next character is not |
| `Utils.TrailingSpace` | src/cv_to_role_analyzer/utils.py:30 | the number of whitespace characters the text ends with: all of them are whitespace, and the character before them is not |
| `Utils.Strip` | src/cv_to_role_analyzer/utils.py:30 | the result is the text between the leading and trailing whitespace, taken unchanged; everything removed is whitespace, and the result neither starts nor ends with whitespace; whitespace is `Utils.IsSpace`, the character set of Python's `str.isspace` (U+0009–U+000D, U+001C–U+0020, U+0085, U+00A0, U+1680, U+2000–U+200A, U+2028, U+2029, U+202F, U+205F, U+3000) |
| `Utils.StripSurrounded` | src/cv_to_role_analyzer/utils.py:30 | text without whitespace at its ends, with whitespace around it, strips back to exactly that text |
| `Utils.StripIdempotent` | src/cv_to_role_analyzer/utils.py:30 | stripping twice is stripping once |
| `Utils.ProcessRole` | src/cv_to_role_analyzer/utils.py:28-36 | a readable file gives its stripped content; a missing or unreadable file gives None rather than an exception; only a decoding error escapes |
| `Utils.KeptPages` | src/cv_to_role_analyzer/utils.py:65-68 | the kept page texts are never empty and are no more than the pages |
| `Utils.KeptPagesAppend` | src/cv_to_role_analyzer/utils.py:65-68 | the pages are kept in order: the kept texts of two runs of pages are the kept texts of the first followed by those of the second |
| `Utils.KeptPagesEmptyIff` | src/cv_to_role_analyzer/utils.py:67 | nothing is kept exactly when no page has non-empty text (`Utils.HasText` is Python truthiness of a page's text: not None and not empty) |
| `Utils.Join` | src/cv_to_role_analyzer/utils.py:69 | `" ".join`: no texts give `""`; otherwise the result starts with the first text and ends with the last |
| `Utils.JoinedText` | src/cv_to_role_analyzer/utils.py:65-69 | the result is None exactly when no page has non-empty text, and a text returned is never empty |
| `Utils.PageWithoutTextIgnored` | src/cv_to_role_analyzer/utils.py:66-68 | a page whose text is None or empty, wherever it is, adds neither text nor a separator |
| `Utils.PageWithTextAppended` | src/cv_to_role_analyzer/utils.py:66-69 | the first page with text gives that text alone; each later one appends exactly one space and its text |
| `Utils.PdfText` | src/cv_to_role_analyzer/utils.py:61-75 | raises exactly for an unparsable PDF; None exactly for a missing or unreadable file or a PDF without page text; for a readable PDF the result is `JoinedText` of its pages (the non-empty page texts in order, one space between them), never empty |
| `Utils.ExtractText` | src/cv_to_role_analyzer/utils.py:61-75 | the loop gives the joined text of the non-empty pages, or None when there are none; a missing or unreadable file gives None; an unparsable PDF raises |
| `CvAnalyzer.CoreReport` | src/cv_to_role_analyzer/cv_analyzer.py:43-44 | `analyze_core` raises exactly when the analysis raises (the same error) or returns None; a report has the three members in `to_json`'s order |
| `CvAnalyzer.AnalyzeCore` | src/cv_to_role_analyzer/cv_analyzer.py:43-44 | returns the report of the analysis, and the requests sent are those of the analysis |
| `CvAnalyzer.CoreReportOfAnalysis` | src/cv_to_role_analyzer/cv_analyzer.py:43-44 | an analysis that returns None makes `analyze_core` raise; one that returns a dict gives that dict's normalised report |
| `CvAnalyzer.CoreReportRoundTrip` | tests/unit/test_analyze_match.py:79-83 | an analysis with exactly the three keys is reproduced by the report |
| `CvAnalyzer.JoinPath` | src/cv_to_role_analyzer/cv_analyzer.py:89 | the path starts with the output directory and ends with `/analysis_result.json`, with no doubled separator (POSIX `/`) |
| `CvAnalyzer.InputTexts` | src/cv_to_role_analyzer/cv_analyzer.py:77-80 | the analysis goes ahead exactly when the role file gives a non-empty stripped text and the CV gives a text, and then with exactly those two texts, both non-empty |
| `CvAnalyzer.VerboseEcho` | src/cv_to_role_analyzer/cv_analyzer.py:94-95 | verbosity 0 prints nothing, 1 prints the success summary, 2 prints the full report |
| `CvAnalyzer.Intended` | src/cv_to_role_analyzer/cv_analyzer.py:92-95 | the messages of a successful run, in order: "saved to" the joined path when a directory is given, then the verbosity message |
| `CvAnalyzer.PrintedPrefix` | src/cv_to_role_analyzer/cv_analyzer.py:92-95 | printing stops at the first message that raises: what is printed is the longest prefix of the messages none of which raises, and it is all of them exactly when none raises |
| `CvAnalyzer.SaveOutcome` | src/cv_to_role_analyzer/cv_analyzer.py:84-124 | returns 0 exactly when the output succeeds (no path that is a file, no `makedirs` or write error) and every message prints; a failed output writes and prints nothing; once written, the file stays even when a later message raises, and the messages printed are those before the failing one |
| `CvAnalyzer.SaveAndShow` | src/cv_to_role_analyzer/cv_analyzer.py:84-95 | the step-by-step write-then-echo, with each exception returning 1, gives exactly `SaveOutcome` |
| `CvAnalyzer.AnalyzeCli` | src/cv_to_role_analyzer/cv_analyzer.py:76-126 | returns 0 or 1. A missing, unreadable or empty text returns 1 with no call to the model, nothing written and nothing printed. An analysis that raises or yields None returns 1 with nothing written or printed. Otherwise the result is `SaveOutcome` of the report. 0 exactly when the texts, the analysis, the output and every message succeed. A written file with 1 means a message failed. At most two model calls |

## Left out

- The Gemini SDK, `load_dotenv` and the environment lookup are not modelled. They are the `Runtime` parameters: the key, the model's reply to the n-th call, `json.loads` of the extracted region, and `str()` of a dict. The model's nondeterminism is captured by letting the reply depend on the call's index as well as on the prompt.
- `json.loads` and `json.dumps` text are not modelled, including `indent=4` and `ensure_ascii=False`. The report is an ordered list of members, and reading it back is `Report.ObjectOf`. JSON numbers are integers only, with no floats.
- pypdf parsing is not modelled. The page texts are given, or the file is marked unparsable.
- File-system effects are given as outcomes: the file contents, whether the output path is a file, and the exception raised by creating the directory or by writing. A write that fails after `open` has truncated the file is modelled as writing nothing.
- The error messages are not modelled: everything printed to standard error, and the messages the two readers print to standard output on a missing or unreadable file. Only the success-path messages are.
- Standard output is given as `echoRaises`: which success messages raise when printed (a closed pipe, or a character the output encoding cannot take). A message that raises is taken to print nothing; a partial write to standard output is not modelled.
- Click option parsing and `--version` are not modelled. The model describes the value `analyze_cli` returns: Click's standalone mode does not turn that value into the process's exit status. The verbosity range 0–2 that click enforces is a precondition of `CvAnalyzer.AnalyzeCli`.
- `CvAnalyzer.JoinPath` is POSIX `os.path.join`: a Windows path with `\` separators or a drive letter is not modelled.
- validation.py is not modelled, because the command never calls it.
- The unit test imports a module-level `analyze_core` that does not exist. Its expectations serve only as the statement of `CvAnalyzer.CoreReportRoundTrip`.
