/**
 * The `/analyze-pr` handler of the original sqlite service
 * (`backend/src/main.py`): three rules, each adding a risk, possibly a
 * suggestion, and a weight to `risk_score`; the health delta is the
 * negated score, and one row goes to the `repo_health` table.
 */
module ScoreService {
  import opened Text
  import opened RuleTable
  import D = DiffAnalysis

  /** Changes above this many lines are a large pull request. */
  const LARGE_SIZE: int := 500
  /** More than this many changed files is a risk. */
  const MANY_FILES: int := 10

  const LARGE_RISK: string := "Large PR size"
  const MANY_FILES_RISK: string := "Touches many files"
  const LINT_RISK: string := "Lint checks failed"
  const SPLIT_SUGGESTION: string := "Consider splitting this PR"
  const LINT_SUGGESTION: string := "Fix lint issues"

  /** The validated request body. */
  datatype PrRequest = PrRequest(
    repo: string, additions: int, deletions: int, changedFiles: int, diff: string, lintPassed: bool)

  function Size(pr: PrRequest): int {
    pr.additions + pr.deletions
  }

  const RISK_TABLE: seq<string> := [LARGE_RISK, MANY_FILES_RISK, LINT_RISK]

  function RiskFlags(pr: PrRequest): seq<bool> {
    [Size(pr) > LARGE_SIZE, pr.changedFiles > MANY_FILES, !pr.lintPassed]
  }

  function Risks(pr: PrRequest): seq<string> {
    Fired(RISK_TABLE, RiskFlags(pr))
  }

  const SUGGESTION_TABLE: seq<string> := [SPLIT_SUGGESTION, LINT_SUGGESTION]

  function Suggestions(pr: PrRequest): seq<string> {
    Fired(SUGGESTION_TABLE, [Size(pr) > LARGE_SIZE, !pr.lintPassed])
  }

  /** The weights: 3 for size, 2 for many files, 2 for failed lint. */
  function RiskScore(pr: PrRequest): int {
    3 * D.Count(Size(pr) > LARGE_SIZE) + 2 * D.Count(pr.changedFiles > MANY_FILES) + 2 * D.Count(!pr.lintPassed)
  }

  lemma RisksUnfold(pr: PrRequest)
    ensures Risks(pr) ==
      (if Size(pr) > LARGE_SIZE then [LARGE_RISK] else []) +
      (if pr.changedFiles > MANY_FILES then [MANY_FILES_RISK] else []) +
      (if !pr.lintPassed then [LINT_RISK] else [])
  {
    var (b, c) := (MANY_FILES_RISK, LINT_RISK);
    assert [b, c][1..] == [c] && [c][1..] == [];
    assert Fired([c], [!pr.lintPassed]) == (if !pr.lintPassed then [c] else []);
    assert Fired([b, c], [pr.changedFiles > MANY_FILES, !pr.lintPassed]) ==
      (if pr.changedFiles > MANY_FILES then [b] else []) + Fired([c], [!pr.lintPassed]);
    assert RISK_TABLE[1..] == [b, c] && RiskFlags(pr)[1..] == [pr.changedFiles > MANY_FILES, !pr.lintPassed];
  }

  lemma SuggestionsUnfold(pr: PrRequest)
    ensures Suggestions(pr) ==
      (if Size(pr) > LARGE_SIZE then [SPLIT_SUGGESTION] else []) + (if !pr.lintPassed then [LINT_SUGGESTION] else [])
  {
    assert [LINT_SUGGESTION][1..] == [];
    assert Fired([LINT_SUGGESTION], [!pr.lintPassed]) == (if !pr.lintPassed then [LINT_SUGGESTION] else []);
    assert SUGGESTION_TABLE[1..] == [LINT_SUGGESTION];
  }

  /**
   * One risk per rule that fired, none twice; the split suggestion
   * exactly for large changes and the lint suggestion exactly for failed lint.
   */
  lemma RulesMeaning(pr: PrRequest)
    ensures var r := Risks(pr);
      |r| == D.Count(Size(pr) > LARGE_SIZE) + D.Count(pr.changedFiles > MANY_FILES) + D.Count(!pr.lintPassed) &&
      (LARGE_RISK in r <==> Size(pr) > LARGE_SIZE) &&
      (MANY_FILES_RISK in r <==> pr.changedFiles > MANY_FILES) &&
      (LINT_RISK in r <==> !pr.lintPassed) &&
      Distinct(r)
    ensures var s := Suggestions(pr);
      (SPLIT_SUGGESTION in s <==> Size(pr) > LARGE_SIZE) &&
      (LINT_SUGGESTION in s <==> !pr.lintPassed) &&
      |s| <= |Risks(pr)|
  {
    RisksUnfold(pr);
    SuggestionsUnfold(pr);
    FiredDistinct(RISK_TABLE, RiskFlags(pr));
  }

  /** The response body. */
  datatype Report = Report(summary: string, risks: seq<string>, suggestions: seq<string>, healthDelta: int)

  /** The row written to `repo_health`: repo, timestamp, health delta, comma-joined risks. */
  datatype HealthRow = HealthRow(repo: string, timestamp: string, healthDelta: int, reason: string)

  function SummaryText(pr: PrRequest): string {
    "This PR changes " + IntToString(pr.changedFiles) + " files with " + IntToString(pr.additions) +
    " additions and " + IntToString(pr.deletions) + " deletions."
  }

  /**
   * `analyze_pr`: the rules accumulate risks, suggestions and `risk_score`
   * in source order; `now` is the clock reading stored in the row.
   */
  method AnalyzePr(pr: PrRequest, now: string) returns (report: Report, row: HealthRow)
    ensures report.risks == Risks(pr)
    ensures report.suggestions == Suggestions(pr)
    ensures report.healthDelta == -RiskScore(pr)
    ensures -7 <= report.healthDelta <= 0
    ensures report.healthDelta == 0 <==> report.risks == []
    ensures report.summary == SummaryText(pr)
    ensures row == HealthRow(pr.repo, now, report.healthDelta, Join(report.risks, ","))
  {
    var risks := [];
    var suggestions := [];
    var prSize := pr.additions + pr.deletions;
    var riskScore := 0;

    if prSize > 500 {
      risks := risks + [LARGE_RISK];
      suggestions := suggestions + [SPLIT_SUGGESTION];
      riskScore := riskScore + 3;
    }
    if pr.changedFiles > 10 {
      risks := risks + [MANY_FILES_RISK];
      riskScore := riskScore + 2;
    }
    if !pr.lintPassed {
      risks := risks + [LINT_RISK];
      suggestions := suggestions + [LINT_SUGGESTION];
      riskScore := riskScore + 2;
    }
    RisksUnfold(pr);
    SuggestionsUnfold(pr);

    var healthDelta := -riskScore;
    row := HealthRow(pr.repo, now, healthDelta, Join(risks, ","));
    var summary := "This PR changes " + IntToString(pr.changedFiles) + " files with " + IntToString(pr.additions) +
      " additions and " + IntToString(pr.deletions) + " deletions.";
    report := Report(summary, risks, suggestions, healthDelta);
  }
}
