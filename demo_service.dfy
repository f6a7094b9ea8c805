/**
 * The `/analyze-pr` handler of the API service
 * (`backend/backend-api/src/main.py`): it runs the heuristic analyser,
 * fills in presentable defaults when DEMO_MODE is on, and records a
 * 0-or-10 score row in sqlite.
 */
module DemoService {
  import opened Wrappers
  import opened Text
  import D = DiffAnalysis
  import BasicRules

  const DEMO_SUMMARY: string := "This pull request introduces focused, high-impact changes."
  const DEMO_RISK: string := "No major risks detected, but changes affect core logic."
  const DEMO_SUGGESTION: string := "Consider a quick manual review of the modified logic."

  /** `DEMO_MODE`: the environment variable, read as "false" when unset, lower-cased and compared with "true". */
  function DemoMode(env: Option<string>): (on: bool)
    ensures env.None? ==> !on
    ensures on ==> env.Some? && |env.value| == |DEMO_ON|
    ensures on <==> env.Some? && |env.value| == 4 &&
                    EitherCase(env.value[0], 't') && EitherCase(env.value[1], 'r') &&
                    EitherCase(env.value[2], 'u') && EitherCase(env.value[3], 'e')
  {
    var v := if env.Some? then env.value else DEMO_OFF;
    assert |DEMO_ON| == 4 && DEMO_ON[0] == 't' && DEMO_ON[1] == 'r' && DEMO_ON[2] == 'u' && DEMO_ON[3] == 'e';
    Lower(v) == DEMO_ON
  }

  /** `c` is the lower-case letter `lower` or its ASCII capital. */
  predicate EitherCase(c: char, lower: char) {
    c == lower || c as int == lower as int - 32
  }

  const DEMO_ON: string := "true"
  const DEMO_OFF: string := "false"

  /** Any capitalisation of "true" turns the demo on; other values do not. */
  lemma DemoModeSpellings()
    ensures DemoMode(Some("true")) && DemoMode(Some("True")) && DemoMode(Some("TRUE")) && DemoMode(Some("tRuE"))
    ensures !DemoMode(Some("1")) && !DemoMode(Some("yes")) && !DemoMode(Some(" true")) && !DemoMode(None)
  {
    assert Lower("True") == DEMO_ON;
    assert Lower("TRUE") == DEMO_ON;
    assert Lower("tRuE") == DEMO_ON;
    assert Lower("true") == DEMO_ON;
  }

  /**
   * The demo post-processing of an analysis. An empty summary, risk list
   * or suggestion list is replaced by its default and a non-empty one is
   * kept; everything else is left as the analyser produced it. The three
   * `setdefault` calls change nothing, because the analyser always sets
   * those keys.
   */
  function DemoDefaults(a: D.Analysis): (r: D.Analysis)
    ensures r.summary != [] && (a.summary != [] ==> r.summary == a.summary)
    ensures a.summary == [] ==> r.summary == DEMO_SUMMARY
    ensures r.risks != [] && (a.risks != [] ==> r.risks == a.risks)
    ensures a.risks == [] ==> r.risks == [DEMO_RISK]
    ensures r.suggestions != [] && (a.suggestions != [] ==> r.suggestions == a.suggestions)
    ensures a.suggestions == [] ==> r.suggestions == [DEMO_SUGGESTION]
    ensures r.structuralSignals == a.structuralSignals && r.semanticInsights == a.semanticInsights
    ensures r.synthesis == a.synthesis && r.healthDelta == a.healthDelta
    ensures r.baselineScore == a.baselineScore && r.semanticScore == a.semanticScore
  {
    a.(summary := if a.summary != [] then a.summary else DEMO_SUMMARY,
       risks := if a.risks != [] then a.risks else [DEMO_RISK],
       suggestions := if a.suggestions != [] then a.suggestions else [DEMO_SUGGESTION])
  }

  /** The `if DEMO_MODE:` block: in demo mode, the in-place updates of the result dictionary, one key at a time. */
  method ApplyDemoDefaults(a: D.Analysis, demo: bool) returns (r: D.Analysis)
    ensures demo ==> r == DemoDefaults(a)
    ensures !demo ==> r == a
  {
    r := a;
    if !demo {
      return;
    }
    if r.summary == [] {
      r := r.(summary := DEMO_SUMMARY);
    }
    if r.risks == [] {
      r := r.(risks := [DEMO_RISK]);
    }
    if r.suggestions == [] {
      r := r.(suggestions := [DEMO_SUGGESTION]);
    }
  }

  /** The validated request body. */
  datatype PrRequest = PrRequest(
    repo: string, prNumber: int, author: string, additions: int, deletions: int,
    changedFiles: int, diff: string, lintPassed: bool)

  /** `payload.dict()` as the analyser reads it: every key is present. */
  function InputOf(p: PrRequest): D.AnalysisInput {
    D.AnalysisInput(Some(p.additions), Some(p.deletions), Some(p.changedFiles), Some(p.diff), Some(p.lintPassed))
  }

  /** The row offered to `repo_health`: repo, timestamp, score, comma-joined risks. */
  datatype ScoreRow = ScoreRow(repo: string, timestamp: string, score: int, reason: string)

  /**
   * `analyze_pr`. `demo` is DEMO_MODE and `now` the clock reading. The
   * insert is inside a try block that swallows database errors, so its
   * outcome never reaches the response: the row is returned as the one
   * offered to the database.
   */
  method AnalyzePr(p: PrRequest, demo: bool, now: string) returns (result: D.Analysis, row: ScoreRow)
    ensures !demo ==> result == D.AnalysisOf(InputOf(p))
    ensures demo ==> result == DemoDefaults(D.AnalysisOf(InputOf(p)))
    ensures row == ScoreRow(p.repo, now, BasicRules.PrScore(result.risks), Join(result.risks, ","))
  {
    result := D.AnalyzePullRequest(InputOf(p));
    result := ApplyDemoDefaults(result, demo);
    var score := if result.risks != [] then 0 else 10;
    row := ScoreRow(p.repo, now, score, Join(result.risks, ","));
  }

  /**
   * The recorded score is 0 exactly when the returned result has risks,
   * and 10 otherwise; in demo mode the risk list is never empty, so the
   * recorded score is always 0.
   */
  lemma RecordedScore(a: D.Analysis, demo: bool)
    ensures var r := if demo then DemoDefaults(a) else a;
      (BasicRules.PrScore(r.risks) == 0 <==> r.risks != []) &&
      (BasicRules.PrScore(r.risks) == 10 <==> r.risks == [])
    ensures demo ==> BasicRules.PrScore(DemoDefaults(a).risks) == 0
  {
  }
}
