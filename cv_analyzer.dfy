/** The orchestrator: `analyze_core` (analysis, then report) and the
    command-line entry point with its early returns and its mapping of every
    exception to the return value 1. */
module CvAnalyzer {
  import opened Values
  import opened Llm
  import opened Report
  import opened Utils

  // ---------------------------------------------------------------------
  // analyze_core

  /** The report `analyze_core` returns, or what it raises: the analysis'
      own TypeError, or the AttributeError of building a report from None. */
  function CoreReport(cvText: string, roleText: string, rt: Runtime): (r: Outcome<Members>)
    ensures r.Raised? <==> Analysis(cvText, roleText, rt).outcome.Raised?
                           || Analysis(cvText, roleText, rt).outcome == Returned(None)
    ensures Analysis(cvText, roleText, rt).outcome.Raised? ==> r.error == Analysis(cvText, roleText, rt).outcome.error
    ensures r.Returned? ==> |r.value| == |ReportKeys| && forall i :: 0 <= i < |r.value| ==> r.value[i].0 == ReportKeys[i]
  {
    match Analysis(cvText, roleText, rt).outcome
    case Raised(e) => Raised(e)
    case Returned(None) => Raised(AttributeError)
    case Returned(Some(d)) => Returned(ToJson(FromAnalysis(d)))
  }

  /** `analyze_core`; `prompts` records the requests the analysis sent. */
  method AnalyzeCore(cvText: string, roleText: string, rt: Runtime)
    returns (report: Outcome<Members>, prompts: seq<seq<Part>>)
    ensures report == CoreReport(cvText, roleText, rt)
    ensures prompts == Analysis(cvText, roleText, rt).prompts
  {
    var run := AnalyzeMatch(cvText, roleText, rt);
    prompts := run.prompts;
    match run.outcome {
      case Raised(e) => report := Raised(e);
      case Returned(analysis) =>
        if analysis.None? {
          report := Raised(AttributeError);
        } else {
          report := Returned(ToJson(FromAnalysis(analysis.value)));
        }
    }
  }

  /** When the analysis returns a dict, the report read back is that dict
      normalised; when it returns None, `analyze_core` raises. */
  lemma CoreReportOfAnalysis(cvText: string, roleText: string, rt: Runtime)
    ensures var outcome := Analysis(cvText, roleText, rt).outcome;
            && (outcome == Returned(None) ==> CoreReport(cvText, roleText, rt) == Raised(AttributeError))
            && (outcome.Returned? && outcome.value.Some? ==>
                  && CoreReport(cvText, roleText, rt).Returned?
                  && ObjectOf(CoreReport(cvText, roleText, rt).value) == Normalise(outcome.value.value))
  {
  }

  /** An analysis with exactly the three report keys is reproduced by the
      report, as the unit and system tests expect. */
  lemma CoreReportRoundTrip(cvText: string, roleText: string, rt: Runtime, d: Dict)
    requires Analysis(cvText, roleText, rt).outcome == Returned(Some(d))
    requires d.Keys == {"match_score", "skill_gaps", "recommendations"}
    ensures CoreReport(cvText, roleText, rt).Returned?
    ensures ObjectOf(CoreReport(cvText, roleText, rt).value) == d
  {
    RoundTrip(d);
  }

  // ---------------------------------------------------------------------
  // analyze_cli

  /** POSIX `os.path.join(directory, name)` for a relative `name`: the
      separator is always `/`. */
  function JoinPath(directory: string, name: string): (path: string)
    ensures directory == "" ==> path == name
    ensures directory != "" ==> |path| == |directory| + |name| + (if directory[|directory| - 1] == '/' then 0 else 1)
    ensures directory != "" ==> path[..|directory|] == directory && path[|path| - |name| - 1..] == "/" + name
  {
    if directory == "" then name
    else if directory[|directory| - 1] == '/' then directory + name
    else directory + "/" + name
  }

  const ResultFileName := "analysis_result.json"

  /** What the file system does with the output directory: whether the path
      names an existing plain file, and the exception, if any, that creating
      the directory or writing the result file raises. */
  datatype FileSystem = FileSystem(
    outputIsFile: bool,
    makedirsError: Option<Exception>,
    writeError: Option<Exception>)

  /** A message printed on standard output on the way to success. */
  datatype Echo = SavedTo(path: string) | Completed | FullReport(report: Members)

  datatype WrittenFile = WrittenFile(path: string, content: Members)

  /** One run of `analyze_cli`: the value it returns, the result file it
      wrote, the messages it printed on standard output, and the number of
      requests it sent to the model. */
  datatype CliRun = CliRun(status: int, written: Option<WrittenFile>, messages: seq<Echo>, llmCalls: nat)

  /** What saving and showing the report does: the value returned, the
      result file written and the messages printed. */
  datatype Saving = Saving(status: int, written: Option<WrittenFile>, messages: seq<Echo>)

  /** The CV text and the role text, when both are there and non-empty. */
  function InputTexts(role: RoleFile, cv: PdfFile): (texts: Option<(string, string)>)
    ensures texts.Some? <==>
              && ProcessRole(role).Returned? && ProcessRole(role).value.Some? && ProcessRole(role).value.value != ""
              && PdfText(cv).Returned? && PdfText(cv).value.Some?
    ensures texts.Some? ==> texts == Some((PdfText(cv).value.value, ProcessRole(role).value.value))
    ensures texts.Some? ==> texts.value.0 != "" && texts.value.1 != ""
  {
    var roleOut := ProcessRole(role);
    var cvOut := PdfText(cv);
    if roleOut.Returned? && roleOut.value.Some? && roleOut.value.value != ""
       && cvOut.Returned? && cvOut.value.Some? && cvOut.value.value != ""
    then Some((cvOut.value.value, roleOut.value.value))
    else None
  }

  /** Writing succeeds, or is not asked for (an empty output directory). */
  predicate OutputSucceeds(outputDir: string, fs: FileSystem)
  {
    outputDir == "" || (!fs.outputIsFile && fs.makedirsError.None? && fs.writeError.None?)
  }

  /** The verbosity-dependent message: none, a summary, or the report. */
  function VerboseEcho(verbose: int, report: Members): (echo: seq<Echo>)
    requires 0 <= verbose <= 2
    ensures verbose == 0 <==> echo == []
    ensures verbose == 1 <==> echo == [Completed]
    ensures verbose == 2 <==> echo == [FullReport(report)]
  {
    if verbose > 0 then [if verbose == 2 then FullReport(report) else Completed] else []
  }

  /** The messages a successful run prints, in order: where the report
      was saved, when it was saved, then what the verbosity asks for. */
  function Intended(outputDir: string, verbose: int, report: Members): (echoes: seq<Echo>)
    requires 0 <= verbose <= 2
    ensures outputDir == "" ==> echoes == VerboseEcho(verbose, report)
    ensures outputDir != "" ==> echoes == [SavedTo(JoinPath(outputDir, ResultFileName))] + VerboseEcho(verbose, report)
  {
    (if outputDir == "" then [] else [SavedTo(JoinPath(outputDir, ResultFileName))]) + VerboseEcho(verbose, report)
  }

  /** Every one of `echoes` is printed without raising. */
  predicate EchoesSucceed(echoes: seq<Echo>, echoRaises: Echo -> bool)
  {
    forall i :: 0 <= i < |echoes| ==> !echoRaises(echoes[i])
  }

  /** The messages that reach standard output when they are printed in
      order and the first one whose printing raises stops the run. */
  function PrintedPrefix(echoes: seq<Echo>, echoRaises: Echo -> bool): (printed: seq<Echo>)
    ensures |printed| <= |echoes| && printed == echoes[..|printed|]
    ensures EchoesSucceed(printed, echoRaises)
    ensures |printed| < |echoes| ==> echoRaises(echoes[|printed|])
    ensures printed == echoes <==> EchoesSucceed(echoes, echoRaises)
  {
    if echoes == [] || echoRaises(echoes[0]) then []
    else
      var rest := PrintedPrefix(echoes[1..], echoRaises);
      assert forall i :: 0 <= i < |rest| ==> ([echoes[0]] + rest)[i + 1] == rest[i];
      [echoes[0]] + rest
  }

  /** The end of `analyze_cli` once the report exists. A failure to write
      returns 1 with nothing written and nothing printed. Once the file is
      written it stays, even when a later message cannot be printed: that
      returns 1 too, after the messages printed before it. */
  function SaveOutcome(outputDir: string, verbose: int, fs: FileSystem, echoRaises: Echo -> bool, report: Members): (s: Saving)
    requires 0 <= verbose <= 2
    ensures s.status == 0 || s.status == 1
    ensures s.status == 0 <==> OutputSucceeds(outputDir, fs) && EchoesSucceed(Intended(outputDir, verbose, report), echoRaises)
    ensures !OutputSucceeds(outputDir, fs) ==> s.written.None? && s.messages == []
    ensures OutputSucceeds(outputDir, fs) ==>
              && s.written == (if outputDir == "" then None else Some(WrittenFile(JoinPath(outputDir, ResultFileName), report)))
              && s.messages == PrintedPrefix(Intended(outputDir, verbose, report), echoRaises)
    ensures s.status == 0 ==> s.messages == Intended(outputDir, verbose, report)
  {
    if !OutputSucceeds(outputDir, fs) then Saving(1, None, [])
    else
      var intended := Intended(outputDir, verbose, report);
      var printed := PrintedPrefix(intended, echoRaises);
      Saving(if printed == intended then 0 else 1,
             if outputDir == "" then None else Some(WrittenFile(JoinPath(outputDir, ResultFileName), report)),
             printed)
  }

  /** `analyze_cli` from the report on: write it into the output directory,
      when one is given, and say so, then print what the verbosity asks
      for; every exception on the way is caught and returns 1. */
  method SaveAndShow(outputDir: string, verbose: int, fs: FileSystem, echoRaises: Echo -> bool, report: Members)
    returns (status: int, written: Option<WrittenFile>, messages: seq<Echo>)
    requires 0 <= verbose <= 2
    ensures Saving(status, written, messages) == SaveOutcome(outputDir, verbose, fs, echoRaises, report)
  {
    written, messages := None, [];
    if outputDir != "" {
      if fs.outputIsFile {
        return 1, None, [];
      }
      if fs.makedirsError.Some? {
        return 1, None, [];
      }
      var path := JoinPath(outputDir, ResultFileName);
      if fs.writeError.Some? {
        return 1, None, [];
      }
      written := Some(WrittenFile(path, report));
      if echoRaises(SavedTo(path)) {
        return 1, written, messages;
      }
      messages := messages + [SavedTo(path)];
    }

    if verbose > 0 {
      var echo := if verbose == 2 then FullReport(report) else Completed;
      if echoRaises(echo) {
        return 1, written, messages;
      }
      messages := messages + [echo];
    }
    return 0, written, messages;
  }

  /** `analyze_cli`; `status` is the value it returns. The verbosity is
      in 0..2, as the option parser enforces; `echoRaises` says which
      messages standard output refuses. */
  method AnalyzeCli(role: RoleFile, cv: PdfFile, outputDir: string, verbose: int, fs: FileSystem,
                    echoRaises: Echo -> bool, rt: Runtime)
    returns (run: CliRun)
    requires 0 <= verbose <= 2
    ensures run.status == 0 || run.status == 1
    ensures run.llmCalls <= 2
    ensures InputTexts(role, cv).None? ==> run == CliRun(1, None, [], 0)
    ensures InputTexts(role, cv).Some? ==>
              var (cvText, roleText) := InputTexts(role, cv).value;
              && run.llmCalls == |Analysis(cvText, roleText, rt).prompts|
              && (CoreReport(cvText, roleText, rt).Raised? ==> run.status == 1 && run.written.None? && run.messages == [])
              && (CoreReport(cvText, roleText, rt).Returned? ==>
                    Saving(run.status, run.written, run.messages)
                    == SaveOutcome(outputDir, verbose, fs, echoRaises, CoreReport(cvText, roleText, rt).value))
    ensures run.status == 0 <==>
              && InputTexts(role, cv).Some?
              && CoreReport(InputTexts(role, cv).value.0, InputTexts(role, cv).value.1, rt).Returned?
              && OutputSucceeds(outputDir, fs)
              && EchoesSucceed(Intended(outputDir, verbose, CoreReport(InputTexts(role, cv).value.0, InputTexts(role, cv).value.1, rt).value), echoRaises)
    ensures run.status == 1 && run.written.Some? ==>
              !EchoesSucceed(Intended(outputDir, verbose, run.written.value.content), echoRaises)
  {
    var roleOut := ProcessRole(role);
    if roleOut.Raised? {
      return CliRun(1, None, [], 0);
    }
    var cvOut := ExtractText(cv);
    if cvOut.Raised? {
      return CliRun(1, None, [], 0);
    }
    var roleText, cvText := roleOut.value, cvOut.value;
    if roleText.None? || roleText.value == "" || cvText.None? || cvText.value == "" {
      return CliRun(1, None, [], 0);
    }
    assert InputTexts(role, cv) == Some((cvText.value, roleText.value));

    var report, prompts := AnalyzeCore(cvText.value, roleText.value, rt);
    assert |prompts| <= 2;
    if report.Raised? {
      return CliRun(1, None, [], |prompts|);
    }

    var status, written, messages := SaveAndShow(outputDir, verbose, fs, echoRaises, report.value);
    return CliRun(status, written, messages, |prompts|);
  }
}
