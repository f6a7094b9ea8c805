/**
 * The simpler pull-request analyser of the original backend
 * (`backend/src/ai/analyze_pull_request.py`): size bucket, four risk
 * rules, three suggestion rules, a semantic score and a health delta.
 * Its texts are those of the richer analyser, except for the split
 * suggestion, which ends in "smaller, focused changes".
 */
module SimpleAnalysis {
  import opened Text
  import opened RuleTable
  import D = DiffAnalysis

  const SPLIT_SUGGESTION: string := "Consider splitting this pull request into smaller, focused changes."

  /** Everything the rules read from the request. */
  datatype Triggers = Triggers(total: int, manyFiles: bool, lintFailed: bool, auth: bool)

  /** A missing key reads as 0, 0, 0, "" and true, as with `dict.get`. */
  function TriggersOf(input: D.AnalysisInput): Triggers {
    var diff := D.GetOr(input.diff, "");
    Triggers(D.GetOr(input.additions, 0) + D.GetOr(input.deletions, 0),
             D.GetOr(input.changedFiles, 0) > D.MANY_FILES,
             !D.GetOr(input.lintPassed, true),
             D.AnyKeyword(Lower(diff), D.AUTH_WORDS))
  }

  predicate Large(t: Triggers) {
    t.total > D.LARGE_TOTAL
  }

  /** The risk rules, in the order the analyser tests them. */
  const RISK_TABLE: seq<string> := [D.LARGE_RISK, D.MANY_FILES_RISK, D.LINT_RISK, D.AUTH_RISK]

  function RiskFlags(t: Triggers): seq<bool> {
    [Large(t), t.manyFiles, t.lintFailed, t.auth]
  }

  function Risks(t: Triggers): seq<string> {
    Fired(RISK_TABLE, RiskFlags(t))
  }

  const SUGGESTION_TABLE: seq<string> := [SPLIT_SUGGESTION, D.LINT_SUGGESTION, D.AUTH_TESTS_SUGGESTION]

  function SuggestionFlags(t: Triggers): seq<bool> {
    [Large(t), t.lintFailed, t.auth]
  }

  function Suggestions(t: Triggers): seq<string> {
    Fired(SUGGESTION_TABLE, SuggestionFlags(t))
  }

  /** The rule table's output, one conditional append per rule. */
  lemma RisksUnfold(t: Triggers)
    ensures Risks(t) ==
      (if Large(t) then [D.LARGE_RISK] else []) + (if t.manyFiles then [D.MANY_FILES_RISK] else []) +
      (if t.lintFailed then [D.LINT_RISK] else []) + (if t.auth then [D.AUTH_RISK] else [])
  {
    var (a, b, c, d) := (D.LARGE_RISK, D.MANY_FILES_RISK, D.LINT_RISK, D.AUTH_RISK);
    assert [b, c, d][1..] == [c, d] && [c, d][1..] == [d] && [d][1..] == [];
    assert Fired([d], [t.auth]) == (if t.auth then [d] else []);
    assert Fired([c, d], [t.lintFailed, t.auth]) == (if t.lintFailed then [c] else []) + Fired([d], [t.auth]);
    assert Fired([b, c, d], [t.manyFiles, t.lintFailed, t.auth]) ==
      (if t.manyFiles then [b] else []) + Fired([c, d], [t.lintFailed, t.auth]);
    assert RISK_TABLE[1..] == [b, c, d] && RiskFlags(t)[1..] == [t.manyFiles, t.lintFailed, t.auth];
  }

  lemma SuggestionsUnfold(t: Triggers)
    ensures Suggestions(t) ==
      (if Large(t) then [SPLIT_SUGGESTION] else []) + (if t.lintFailed then [D.LINT_SUGGESTION] else []) +
      (if t.auth then [D.AUTH_TESTS_SUGGESTION] else [])
  {
    var (b, c) := (D.LINT_SUGGESTION, D.AUTH_TESTS_SUGGESTION);
    assert [b, c][1..] == [c] && [c][1..] == [];
    assert Fired([c], [t.auth]) == (if t.auth then [c] else []);
    assert Fired([b, c], [t.lintFailed, t.auth]) == (if t.lintFailed then [b] else []) + Fired([c], [t.auth]);
    assert SUGGESTION_TABLE[1..] == [b, c] && SuggestionFlags(t)[1..] == [t.lintFailed, t.auth];
  }

  /** Exactly one risk per rule that fired, each at most once. */
  lemma RisksMeaning(t: Triggers)
    ensures var r := Risks(t);
      |r| == D.Count(Large(t)) + D.Count(t.manyFiles) + D.Count(t.lintFailed) + D.Count(t.auth) &&
      (D.LARGE_RISK in r <==> Large(t)) &&
      (D.MANY_FILES_RISK in r <==> t.manyFiles) &&
      (D.LINT_RISK in r <==> t.lintFailed) &&
      (D.AUTH_RISK in r <==> t.auth) &&
      Distinct(r)
  {
    RisksUnfold(t);
    FiredDistinct(RISK_TABLE, RiskFlags(t));
  }

  /**
   * Every suggestion rule is also a risk rule, so a change with
   * suggestions always has risks; each suggestion has its trigger.
   */
  lemma SuggestionsNeedRisks(t: Triggers)
    ensures Suggestions(t) != [] ==> Risks(t) != []
    ensures var s := Suggestions(t);
      (SPLIT_SUGGESTION in s <==> Large(t)) &&
      (D.LINT_SUGGESTION in s <==> t.lintFailed) &&
      (D.AUTH_TESTS_SUGGESTION in s <==> t.auth)
  {
    RisksUnfold(t);
    SuggestionsUnfold(t);
  }

  /** The result of `analyze_pull_request`. */
  datatype Result = Result(
    summary: string, risks: seq<string>, suggestions: seq<string>,
    healthDelta: int, baselineScore: real, semanticScore: int)

  /** `analyze_pull_request`: straight-line appends and score updates, as in the source. */
  method Analyze(input: D.AnalysisInput) returns (r: Result)
    ensures var t := TriggersOf(input);
      (r.summary == D.LARGE_SUMMARY <==> t.total > 300) &&
      (r.summary == D.MEDIUM_SUMMARY <==> 100 < t.total <= 300) &&
      (r.summary == D.SMALL_SUMMARY <==> t.total <= 100)
    ensures r.risks == Risks(TriggersOf(input))
    ensures r.suggestions == Suggestions(TriggersOf(input))
    ensures var t := TriggersOf(input);
      r.semanticScore == 50 + 20 * D.Count(t.auth) + 10 * D.Count(t.manyFiles) - 10 * D.Count(t.lintFailed)
    ensures 40 <= r.semanticScore <= 80
    ensures r.healthDelta in {-5, -3, -2, 0, 2}
    ensures r.healthDelta == 2 <==> r.risks == []
    ensures var t := TriggersOf(input);
      (r.healthDelta == -5 <==> Large(t) && t.lintFailed) &&
      (r.healthDelta == -3 <==> Large(t) && !t.lintFailed) &&
      (r.healthDelta == -2 <==> !Large(t) && t.lintFailed)
    ensures r.baselineScore == D.Baseline(TriggersOf(input).total)
  {
    var additions := D.GetOr(input.additions, 0);
    var deletions := D.GetOr(input.deletions, 0);
    var changedFiles := D.GetOr(input.changedFiles, 0);
    var diff := D.GetOr(input.diff, "");
    var lintPassed := D.GetOr(input.lintPassed, true);
    var total := additions + deletions;
    var auth := D.AnyKeyword(Lower(diff), D.AUTH_WORDS);
    ghost var t := TriggersOf(input);

    var summary := D.SMALL_SUMMARY;
    if total > 300 {
      summary := D.LARGE_SUMMARY;
    } else if total > 100 {
      summary := D.MEDIUM_SUMMARY;
    }

    var risks := [];
    if total > 300 {
      risks := risks + [D.LARGE_RISK];
    }
    ghost var r1 := if Large(t) then [D.LARGE_RISK] else [];
    assert risks == r1;
    if changedFiles > 5 {
      risks := risks + [D.MANY_FILES_RISK];
    }
    ghost var r2 := r1 + (if t.manyFiles then [D.MANY_FILES_RISK] else []);
    assert risks == r2;
    if !lintPassed {
      risks := risks + [D.LINT_RISK];
    }
    ghost var r3 := r2 + (if t.lintFailed then [D.LINT_RISK] else []);
    assert risks == r3;
    if auth {
      risks := risks + [D.AUTH_RISK];
    }
    assert risks == r3 + (if t.auth then [D.AUTH_RISK] else []);
    RisksUnfold(t);
    assert risks == Risks(t);

    var suggestions := [];
    if total > 300 {
      suggestions := suggestions + [SPLIT_SUGGESTION];
    }
    ghost var s1 := if Large(t) then [SPLIT_SUGGESTION] else [];
    assert suggestions == s1;
    if !lintPassed {
      suggestions := suggestions + [D.LINT_SUGGESTION];
    }
    ghost var s2 := s1 + (if t.lintFailed then [D.LINT_SUGGESTION] else []);
    assert suggestions == s2;
    if auth {
      suggestions := suggestions + [D.AUTH_TESTS_SUGGESTION];
    }
    assert suggestions == s2 + (if t.auth then [D.AUTH_TESTS_SUGGESTION] else []);
    SuggestionsUnfold(t);
    assert suggestions == Suggestions(t);

    var semanticScore := 50;
    if auth {
      semanticScore := semanticScore + 20;
    }
    if changedFiles > 5 {
      semanticScore := semanticScore + 10;
    }
    if !lintPassed {
      semanticScore := semanticScore - 10;
    }
    semanticScore := if semanticScore > 100 then 100 else semanticScore;
    semanticScore := if semanticScore < 0 then 0 else semanticScore;

    var healthDelta := 0;
    if total > 300 {
      healthDelta := healthDelta - 3;
    }
    if !lintPassed {
      healthDelta := healthDelta - 2;
    }
    if risks == [] {
      healthDelta := healthDelta + 2;
    }

    r := Result(summary, risks, suggestions, healthDelta, D.Baseline(total), semanticScore);
  }
}
