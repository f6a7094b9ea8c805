/**
 * `analyzePullRequest` of `backend/src/analyze-pr.js`: a repository card
 * whose health score starts at 100 and loses 30 for a large change and 25
 * for failed lint, floored at 40, with a three-level status.
 */
module HealthCard {
  import opened Wrappers
  import opened Text
  import opened Json

  const DEFAULT_REPO: string := "unknown-repo"
  const LARGE_SIZE: int := 500
  const LARGE_PENALTY: int := 30
  const LINT_PENALTY: int := 25
  const FLOOR: int := 40
  const AT_RISK_BELOW: int := 80
  const CRITICAL_BELOW: int := 65

  const HEALTHY: string := "Healthy"
  const AT_RISK: string := "At Risk"
  const CRITICAL: string := "Critical"
  const SAFE_REASON: string := "Changes are within safe limits"
  const RISK_REASON: string := "Large PR or failed checks increased risk"
  const CARD_TITLE: string := "Automated PR Analysis"

  /**
   * The payload fields; None is `undefined`, which the destructuring
   * defaults replace. A `null` is not replaced.
   */
  datatype Payload = Payload(repo: Option<Json>, additions: Option<int>, deletions: Option<int>, lintPassed: Option<Json>)

  datatype PrLine = PrLine(title: string, summary: string)

  datatype Card = Card(name: Json, healthScore: int, status: string, reason: string, prs: seq<PrLine>)

  function Size(p: Payload): int {
    (if p.additions.Some? then p.additions.value else 0) + (if p.deletions.Some? then p.deletions.value else 0)
  }

  /** `lint_passed` read with JavaScript truthiness; absent means passed. */
  predicate LintPassed(p: Payload) {
    p.lintPassed.None? || JsTruthy(p.lintPassed)
  }

  /** The penalty: 30 for a change over 500 lines, 25 for failed lint. */
  function Risk(p: Payload): int {
    (if Size(p) > LARGE_SIZE then LARGE_PENALTY else 0) + (if !LintPassed(p) then LINT_PENALTY else 0)
  }

  /** `analyzePullRequest`: `risk` and `status` are built up step by step, as in the source. */
  method AnalyzePullRequest(p: Payload) returns (card: Card)
    ensures card.name == (if p.repo.Some? then p.repo.value else JStr(DEFAULT_REPO))
    ensures card.healthScore == (if 100 - Risk(p) > FLOOR then 100 - Risk(p) else FLOOR)
    ensures FLOOR <= card.healthScore <= 100
    ensures card.status == CRITICAL <==> card.healthScore < CRITICAL_BELOW
    ensures card.status == AT_RISK <==> CRITICAL_BELOW <= card.healthScore < AT_RISK_BELOW
    ensures card.status == HEALTHY <==> card.healthScore >= AT_RISK_BELOW
    ensures card.status == HEALTHY <==> Size(p) <= LARGE_SIZE && LintPassed(p)
    ensures card.status == CRITICAL <==> Size(p) > LARGE_SIZE && !LintPassed(p)
    ensures card.reason == SAFE_REASON <==> card.status == HEALTHY
    ensures card.reason == RISK_REASON <==> card.status != HEALTHY
    ensures |card.prs| == 1 && card.prs[0].title == CARD_TITLE
    ensures card.prs[0].summary ==
      "Diff size " + IntToString(Size(p)) + " · " + (if LintPassed(p) then "Lint passed" else "Lint failed")
  {
    var repo := if p.repo.Some? then p.repo.value else JStr(DEFAULT_REPO);
    var additions := if p.additions.Some? then p.additions.value else 0;
    var deletions := if p.deletions.Some? then p.deletions.value else 0;
    var lintPassed := if p.lintPassed.Some? then p.lintPassed.value else JBool(true);

    var risk := 0;
    var size := additions + deletions;
    if size > 500 {
      risk := risk + 30;
    }
    if !JsTruthy(Some(lintPassed)) {
      risk := risk + 25;
    }

    var healthScore := if 100 - risk > 40 then 100 - risk else 40;

    var status := HEALTHY;
    if healthScore < 80 {
      status := AT_RISK;
    }
    if healthScore < 65 {
      status := CRITICAL;
    }

    var reason := if status == HEALTHY then SAFE_REASON else RISK_REASON;
    var summary := "Diff size " + IntToString(size) + " · " +
      (if JsTruthy(Some(lintPassed)) then "Lint passed" else "Lint failed");
    card := Card(repo, healthScore, status, reason, [PrLine(CARD_TITLE, summary)]);
  }
}
