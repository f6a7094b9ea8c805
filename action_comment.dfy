/**
 * The GitHub Action scripts (`backend/backend-api/src/index.js`,
 * `backend/src/index.js`, `backend/src/monitor.js`): the local
 * forbidden-pattern linter, the payload sent to the backend, and the
 * review comment rendered from the backend's answer.
 */
module ActionComment {
  import opened Wrappers
  import opened Text
  import opened Json
  import opened Formatting
  import D = DiffAnalysis

  /** The texts whose presence anywhere in the diff fails the local lint. */
  const FORBIDDEN_PATTERNS: seq<string> := ["console.log", "FIXME", "debugger"]

  /** `runBasicLint`: the patterns are tried in order and the first hit fails the lint. */
  method RunBasicLint(diff: string) returns (passed: bool)
    ensures !passed <==> exists i :: 0 <= i < |FORBIDDEN_PATTERNS| && Contains(diff, FORBIDDEN_PATTERNS[i])
    ensures passed <==> !D.AnyKeyword(diff, FORBIDDEN_PATTERNS)
  {
    D.AnyKeywordIff(diff, FORBIDDEN_PATTERNS);
    for i := 0 to |FORBIDDEN_PATTERNS|
      invariant forall j :: 0 <= j < i ==> !Contains(diff, FORBIDDEN_PATTERNS[j])
    {
      if Contains(diff, FORBIDDEN_PATTERNS[i]) {
        return false;
      }
    }
    return true;
  }

  /** A forbidden pattern anywhere in the diff, wherever it sits, fails the lint. */
  lemma ForbiddenAnywhere(before: string, k: nat, after: string)
    requires k < |FORBIDDEN_PATTERNS|
    ensures D.AnyKeyword(before + FORBIDDEN_PATTERNS[k] + after, FORBIDDEN_PATTERNS)
  {
    var p := FORBIDDEN_PATTERNS[k];
    var s := before + p + after;
    assert s[|before|..] == p + after;
    assert Contains(s[|before|..], p);
    ContainsSuffix(s, |before|, p);
    D.AnyKeywordIff(s, FORBIDDEN_PATTERNS);
  }

  // ---------------------------------------------------------------------
  // The payload (backend/backend-api/src/index.js, backend/src/index.js)
  // ---------------------------------------------------------------------

  /** The pull request fields the payload reads; None is `undefined`. */
  datatype PrData = PrData(login: Option<string>, additions: Option<Json>, deletions: Option<Json>, changedFiles: Option<Json>)

  datatype Payload = Payload(
    repo: string, prNumber: Json, author: Option<string>, additions: Json, deletions: Json,
    changedFiles: Json, diff: string, lintPassed: bool)

  /** `v || 0`: a falsy or missing count becomes 0, anything else is sent as it is. */
  function OrZero(v: Option<Json>): (r: Json)
    ensures JsTruthy(Some(r)) || r == JInt(0)
    ensures JsTruthy(v) ==> r == v.value
    ensures !JsTruthy(v) ==> r == JInt(0)
  {
    if JsTruthy(v) then v.value else JInt(0)
  }

  /** The payload object: "owner/repo", the counts with their zero defaults, and the lint verdict on the diff. */
  method BuildPayload(owner: string, repo: string, prNumber: Json, pr: PrData, diffText: Option<string>)
    returns (p: Payload)
    ensures p.repo == owner + "/" + repo && p.prNumber == prNumber && p.author == pr.login
    ensures p.additions == OrZero(pr.additions) && p.deletions == OrZero(pr.deletions)
    ensures p.changedFiles == OrZero(pr.changedFiles)
    ensures p.diff == (if diffText.Some? then diffText.value else "")
    ensures p.lintPassed <==> !D.AnyKeyword(p.diff, FORBIDDEN_PATTERNS)
  {
    var diff := if diffText.Some? && diffText.value != "" then diffText.value else "";
    var lint := RunBasicLint(diff);
    p := Payload(owner + "/" + repo, prNumber, pr.login, OrZero(pr.additions), OrZero(pr.deletions),
                 OrZero(pr.changedFiles), diff, lint);
  }

  // ---------------------------------------------------------------------
  // The comment of backend/src/index.js and backend/src/monitor.js
  // ---------------------------------------------------------------------

  const RISK_BULLET: string := "- \U{1F534} "
  const NO_RISKS: string := "- \U{2705} No significant risks detected."
  const SUGGESTION_BULLET: string := "- \U{1F4A1} "
  const NO_SUGGESTIONS: string := "- No immediate suggestions."

  function RiskList(risks: seq<string>): string {
    ListOrDefault(risks, RISK_BULLET, NO_RISKS)
  }

  function SuggestionList(suggestions: seq<string>): string {
    ListOrDefault(suggestions, SUGGESTION_BULLET, NO_SUGGESTIONS)
  }

  /**
   * `${v > 0 ? '+' : ''}${v}` for `health_score_impact`: "undefined" when
   * the answer has no such field, the signed number otherwise.
   */
  function ImpactText(v: Option<int>): (s: string)
    ensures s != []
    ensures v.None? ==> s == "undefined"
    ensures v.Some? ==> (s[0] == '+' <==> v.value > 0)
    ensures v.Some? && v.value > 0 ==> ParseInt(s[1..]) == Some(v.value)
    ensures v.Some? && v.value <= 0 ==> ParseInt(s) == Some(v.value)
  {
    if v.None? then "undefined"
    else
      SignedIff(v.value);
      Signed(v.value)
  }

  /** One risk line per risk, or the single all-clear line; likewise for suggestions. */
  lemma ReportLists(risks: seq<string>, suggestions: seq<string>)
    requires forall x :: x in risks ==> '\n' !in x
    requires forall x :: x in suggestions ==> '\n' !in x
    ensures risks == [] ==> RiskList(risks) == NO_RISKS
    ensures risks != [] ==> Split(RiskList(risks), '\n') == Bullets(risks, RISK_BULLET)
    ensures suggestions == [] ==> SuggestionList(suggestions) == NO_SUGGESTIONS
    ensures suggestions != [] ==> Split(SuggestionList(suggestions), '\n') == Bullets(suggestions, SUGGESTION_BULLET)
  {
    ListLines(risks, RISK_BULLET, NO_RISKS);
    ListLines(suggestions, SUGGESTION_BULLET, NO_SUGGESTIONS);
  }

  /** The backend's answer as these two scripts read it; `risks` and `suggestions` must be arrays. */
  datatype Report = Report(summary: Option<Json>, risks: seq<string>, suggestions: seq<string>, healthScoreImpact: Option<int>)

  /** `${v}` in a template: "undefined" for a missing field. */
  function Shown(v: Option<Json>): string {
    if v.Some? then JsString(v.value) else "undefined"
  }

  /** The body of the report comment, up to the health line. */
  function ReportHead(a: Report): string {
    "\n## \U{1F916} Repo Supervisor Report\n\n" + Shown(a.summary) +
    "\n\n### \U{1F6E1}\U{FE0F} Risk Assessment\n" + RiskList(a.risks) +
    "\n\n### \U{1F4DD} Suggestions\n" + SuggestionList(a.suggestions) +
    "\n\n---\n**Health Impact:** "
  }

  /** `commentBody` of `backend/src/index.js`. */
  function ReportComment(a: Report): string {
    ReportHead(a) + ImpactText(a.healthScoreImpact) + " pts\n"
  }

  /** `commentBody` of `backend/src/monitor.js`: the same text, followed by the template's indentation. */
  function MonitorComment(a: Report): string {
    ReportComment(a) + "    "
  }

  // ---------------------------------------------------------------------
  // The comment of backend/backend-api/src/index.js
  // ---------------------------------------------------------------------

  const PLAIN_BULLET: string := "- "
  const NO_STRUCTURAL: string := "- No structural signals detected."
  const NO_SEMANTIC: string := "- No semantic insights detected."
  const NO_ACTIONS: string := "- No immediate actions suggested."
  const NO_NARRATIVE: string := "No synthesized narrative available."
  const BASELINE_LABEL: string := "- Baseline risk score: "
  const SEMANTIC_LABEL: string := "- Semantic risk score: "
  const UNAVAILABLE: string := "unavailable"

  /**
   * The fields of the analysis after destructuring: the three lists read
   * as [] and the delta as 0 when missing.
   */
  datatype Supervision = Supervision(
    summary: Option<Json>, structuralSignals: Option<seq<string>>, semanticInsights: Option<seq<string>>,
    synthesis: Option<Json>, suggestions: Option<seq<string>>, healthDelta: Option<int>,
    baselineScore: Option<Json>, semanticScore: Option<Json>)

  function Listed(items: Option<seq<string>>, default: string): string {
    ListOrDefault(if items.Some? then items.value else [], PLAIN_BULLET, default)
  }

  /** A score line: the number when the field is a number, "unavailable" otherwise. */
  function ScoreLine(heading: string, v: Option<Json>): (line: string)
    ensures heading <= line
    ensures v.Some? && v.value.JInt? ==> ParseInt(line[|heading|..]) == Some(v.value.i)
    ensures !(v.Some? && v.value.JInt?) ==> line[|heading|..] == UNAVAILABLE
  {
    if v.Some? && v.value.JInt? then
      IntToStringRoundTrip(v.value.i);
      heading + IntToString(v.value.i)
    else heading + UNAVAILABLE
  }

  /** `healthImpact`: the delta, 0 when missing, with "+" before a positive value. */
  function HealthImpact(v: Option<int>): (s: string)
    ensures s != []
    ensures s[0] == '+' <==> v.Some? && v.value > 0
    ensures v.None? ==> s == "0"
    ensures v.Some? && v.value > 0 ==> ParseInt(s[1..]) == Some(v.value)
    ensures v.Some? && v.value <= 0 ==> ParseInt(s) == Some(v.value)
  {
    var n := if v.Some? then v.value else 0;
    SignedIff(n);
    Signed(n)
  }

  const SUPERVISOR_HEAD: string := "\n## \U{1F916} Repo Supervisor\n\n### What changed\n"
  const IMPACT_LABEL: string := "\n\n\U{1F4CA} **Repo health impact:** "

  /**
   * `commentBody` of `backend/backend-api/src/index.js`: it opens with the
   * title and the summary, and closes with the health impact line.
   */
  function SupervisorComment(a: Supervision): (r: string)
    ensures SUPERVISOR_HEAD + Shown(a.summary) <= r
    ensures var tail := IMPACT_LABEL + HealthImpact(a.healthDelta) + "\n";
      |tail| <= |r| && r[|r| - |tail|..] == tail
  {
    var head := SUPERVISOR_HEAD + Shown(a.summary);
    var tail := IMPACT_LABEL + HealthImpact(a.healthDelta) + "\n";
    var body := SupervisorSections(a);
    Framed(head, body, tail);
    head + body + tail
  }

  /** A text put together from three parts starts with the first and ends with the last. */
  lemma Framed(head: string, body: string, tail: string)
    ensures var r := head + body + tail;
      head <= r && |tail| <= |r| && r[|r| - |tail|..] == tail
  {
    var r := head + body + tail;
    assert r[..|head|] == head;
  }

  /** The sections between the summary and the health impact line. */
  function SupervisorSections(a: Supervision): string {
    "\n\n### Structural signals (size, surface area)\n" + Listed(a.structuralSignals, NO_STRUCTURAL) +
    "\n\n### Semantic insights (behavioral intent)\n" + Listed(a.semanticInsights, NO_SEMANTIC) +
    "\n\n### Why this matters\n" + (if JsTruthy(a.synthesis) then JsString(a.synthesis.value) else NO_NARRATIVE) +
    "\n\n### Risk signals\n" + ScoreLine(BASELINE_LABEL, a.baselineScore) + "\n" + ScoreLine(SEMANTIC_LABEL, a.semanticScore) +
    "\n\n### Suggested actions (human decides)\n" + Listed(a.suggestions, NO_ACTIONS)
  }

  /** The three lists: "- item" per item, or their default line when the field is missing or empty. */
  lemma SupervisorLists(items: Option<seq<string>>, default: string)
    requires items.Some? ==> forall x :: x in items.value ==> '\n' !in x
    ensures items.None? || items.value == [] ==> Listed(items, default) == default
    ensures items.Some? && items.value != [] ==> Split(Listed(items, default), '\n') == Bullets(items.value, PLAIN_BULLET)
  {
    ListLines(if items.Some? then items.value else [], PLAIN_BULLET, default);
  }
}
