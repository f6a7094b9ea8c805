/**
 * The three-condition rule table that four request handlers share
 * (backend-db `analyze_pr`, the backend-ai deterministic fallback, the
 * HTTPS server's and the serverless `/analyze-pr` handlers): lint
 * failures, a diff over 5000 characters, and more than 500 net additions.
 * Only the wording of the lint risk differs between them.
 */
module BasicRules {
  /** Diff length above which a change is "Very large diff". */
  const LARGE_DIFF: int := 5000
  /** Net additions above which a change is "Many additions". */
  const MANY_ADDITIONS: int := 500

  const LARGE_DIFF_RISK: string := "Very large diff"
  const MANY_ADDITIONS_RISK: string := "Many additions"
  const FIX_LINT: string := "Fix lint issues"
  const ADD_TESTS: string := "Add unit tests for changed code"

  /** The wording of the lint risk: "Lint failures detected" in Python, "Lint failures" in JavaScript. */
  predicate GoodLintLabel(lintLabel: string) {
    lintLabel != LARGE_DIFF_RISK && lintLabel != MANY_ADDITIONS_RISK
  }

  /** The risks, one per triggered condition, in the order the handlers test them. */
  function Risks(lintLabel: string, lintPassed: bool, diffLen: int, additions: int, deletions: int): seq<string> {
    (if !lintPassed then [lintLabel] else []) +
    (if diffLen > LARGE_DIFF then [LARGE_DIFF_RISK] else []) +
    (if additions - deletions > MANY_ADDITIONS then [MANY_ADDITIONS_RISK] else [])
  }

  function Suggestions(lintPassed: bool, risks: seq<string>): seq<string> {
    (if !lintPassed then [FIX_LINT] else []) + (if risks == [] then [ADD_TESTS] else [])
  }

  /** `pr_score`: 10 for a clean change, 0 otherwise. */
  function PrScore(risks: seq<string>): int {
    if risks == [] then 10 else 0
  }

  /** `health_delta`: 0 for a clean change, -5 otherwise. */
  function HealthDelta(risks: seq<string>): int {
    if risks == [] then 0 else -5
  }

  /** The handlers' `risks`/`suggestions` construction: start empty and push per condition. */
  method Assess(lintLabel: string, lintPassed: bool, diffLen: int, additions: int, deletions: int)
    returns (risks: seq<string>, suggestions: seq<string>)
    ensures risks == Risks(lintLabel, lintPassed, diffLen, additions, deletions)
    ensures suggestions == Suggestions(lintPassed, risks)
  {
    risks := [];
    if !lintPassed {
      risks := risks + [lintLabel];
    }
    if diffLen > LARGE_DIFF {
      risks := risks + [LARGE_DIFF_RISK];
    }
    if additions - deletions > MANY_ADDITIONS {
      risks := risks + [MANY_ADDITIONS_RISK];
    }
    suggestions := [];
    if !lintPassed {
      suggestions := suggestions + [FIX_LINT];
    }
    if |risks| == 0 {
      suggestions := suggestions + [ADD_TESTS];
    }
  }

  /** Each risk is there exactly when its condition holds, and there is nothing else. */
  lemma RisksExact(lintLabel: string, lintPassed: bool, diffLen: int, additions: int, deletions: int)
    requires GoodLintLabel(lintLabel)
    ensures var r := Risks(lintLabel, lintPassed, diffLen, additions, deletions);
      (lintLabel in r <==> !lintPassed) &&
      (LARGE_DIFF_RISK in r <==> diffLen > LARGE_DIFF) &&
      (MANY_ADDITIONS_RISK in r <==> additions - deletions > MANY_ADDITIONS) &&
      (forall x :: x in r ==> x == lintLabel || x == LARGE_DIFF_RISK || x == MANY_ADDITIONS_RISK) &&
      |r| == (if !lintPassed then 1 else 0) + (if diffLen > LARGE_DIFF then 1 else 0) + (if additions - deletions > MANY_ADDITIONS then 1 else 0)
  {
  }

  /** A change is clean (score 10, delta 0, the tests suggestion) exactly when no condition holds; otherwise it scores 0 and -5. */
  lemma CleanIff(lintLabel: string, lintPassed: bool, diffLen: int, additions: int, deletions: int)
    ensures var r := Risks(lintLabel, lintPassed, diffLen, additions, deletions);
      var clean := lintPassed && diffLen <= LARGE_DIFF && additions - deletions <= MANY_ADDITIONS;
      (PrScore(r) == 10 && HealthDelta(r) == 0 <==> clean) &&
      (PrScore(r) == 0 && HealthDelta(r) == -5 <==> !clean) &&
      (ADD_TESTS in Suggestions(lintPassed, r) <==> clean) &&
      (FIX_LINT in Suggestions(lintPassed, r) <==> !lintPassed)
  {
  }
}
