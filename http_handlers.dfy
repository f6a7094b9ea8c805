/**
 * What the two JavaScript `/analyze-pr` handlers share: the shared-secret
 * bearer check (a simplified form of the `Authorization: Bearer` header of
 * section 2.1 of RFC 6750), the request body with its destructuring
 * defaults, and the minimal deterministic analysis.
 */
module JsRequest {
  import opened Wrappers
  import opened Text
  import opened Json
  import BasicRules

  const BEARER: string := "Bearer "
  const DEFAULT_SECRET: string := "local-secret"

  /** `process.env.BACKEND_SECRET || 'local-secret'`: an unset or empty variable falls back. */
  function Secret(env: Option<string>): (s: string)
    ensures s != []
    ensures env.Some? && env.value != [] ==> s == env.value
    ensures env.None? || env.value == [] ==> s == DEFAULT_SECRET
  {
    if env.Some? && env.value != [] then env.value else DEFAULT_SECRET
  }

  /** The `authorization` header, or "" when absent. */
  function AuthHeader(h: Option<string>): string {
    if h.Some? then h.value else ""
  }

  /** The token after "Bearer ", trimmed; None when the header lacks the prefix. */
  function BearerToken(auth: string): (t: Option<string>)
    ensures t.Some? <==> BEARER <= auth
  {
    if BEARER <= auth then Some(Strip(auth[|BEARER|..], JsWhitespace)) else None
  }

  predicate AllIn(s: string, ws: set<char>) {
    forall i :: 0 <= i < |s| ==> s[i] in ws
  }

  lemma {:induction false} TrimLeftPad(pad: string, s: string, ws: set<char>)
    requires AllIn(pad, ws)
    requires s == [] || s[0] !in ws
    ensures TrimLeft(pad + s, ws) == s
    decreases |pad|
  {
    if pad != [] {
      assert (pad + s)[1..] == pad[1..] + s;
      TrimLeftPad(pad[1..], s, ws);
    }
  }

  lemma {:induction false} TrimRightPad(s: string, pad: string, ws: set<char>)
    requires AllIn(pad, ws)
    requires s == [] || s[|s| - 1] !in ws
    ensures TrimRight(s + pad, ws) == s
    decreases |pad|
  {
    if pad != [] {
      var shorter := pad[..|pad| - 1];
      assert (s + pad)[..|s + pad| - 1] == s + shorter;
      TrimRightPad(s, shorter, ws);
    }
  }

  /**
   * A header carrying the secret after the prefix yields exactly the
   * secret, whatever whitespace surrounds it, provided the secret itself
   * neither starts nor ends with whitespace.
   */
  lemma BearerAcceptsPadded(secret: string, before: string, after: string)
    requires secret != [] && secret[0] !in JsWhitespace && secret[|secret| - 1] !in JsWhitespace
    requires AllIn(before, JsWhitespace) && AllIn(after, JsWhitespace)
    ensures BearerToken(BEARER + before + secret + after) == Some(secret)
  {
    var auth := BEARER + before + secret + after;
    assert auth[|BEARER|..] == before + (secret + after);
    assert (secret + after)[0] == secret[0];
    TrimLeftPad(before, secret + after, JsWhitespace);
    TrimRightPad(secret, after, JsWhitespace);
  }

  /** The scheme name is matched case-sensitively: "bearer " is no bearer header. */
  lemma LowerCaseSchemeRefused(secret: string)
    ensures BearerToken("bearer " + secret).None?
  {
    assert ("bearer " + secret)[0] == 'b';
  }

  /** JavaScript `s.length`: UTF-16 code units, two for a character outside the Basic Multilingual Plane. */
  function Utf16Length(s: string): (n: nat)
    ensures |s| <= n <= 2 * |s|
    decreases |s|
  {
    if s == [] then 0 else (if s[0] as int > 0xFFFF then 2 else 1) + Utf16Length(s[1..])
  }

  /** For text inside the Basic Multilingual Plane, `length` is the number of characters. */
  lemma {:induction false} Utf16LengthBmp(s: string)
    requires forall i :: 0 <= i < |s| ==> s[i] as int <= 0xFFFF
    ensures Utf16Length(s) == |s|
    decreases |s|
  {
    if s != [] {
      Utf16LengthBmp(s[1..]);
    }
  }

  /**
   * The fields of `req.body || {}`; None is `undefined`. Destructuring
   * defaults (0, 0, "", true) replace `undefined` only, never `null`.
   */
  datatype Body = Body(
    repo: Option<Json>, prNumber: Option<Json>, additions: Option<int>, deletions: Option<int>,
    diff: Option<string>, lintPassed: Option<Json>)

  /** `req.body || {}`: a missing body reads as an object without fields. */
  function BodyOf(body: Option<Body>): Body {
    if body.Some? then body.value else Body(None, None, None, None, None, None)
  }

  /** `!repo || !pr_number` is false. */
  predicate Identified(b: Body) {
    JsTruthy(b.repo) && JsTruthy(b.prNumber)
  }

  predicate LintPassed(b: Body) {
    b.lintPassed.None? || JsTruthy(b.lintPassed)
  }

  function Additions(b: Body): int {
    if b.additions.Some? then b.additions.value else 0
  }

  function Deletions(b: Body): int {
    if b.deletions.Some? then b.deletions.value else 0
  }

  function DiffLength(b: Body): nat {
    Utf16Length(if b.diff.Some? then b.diff.value else "")
  }

  const LINT_LABEL: string := "Lint failures"
  const MISSING_FIELDS: string := "missing repo or pr_number"

  function Risks(b: Body): seq<string> {
    BasicRules.Risks(LINT_LABEL, LintPassed(b), DiffLength(b), Additions(b), Deletions(b))
  }

  /** The handlers' replies: an error with its status, or the 200 analysis. */
  datatype Reply =
    | Failure(status: int, error: string)
    | Report(summary: string, risks: seq<string>, suggestions: seq<string>, healthDelta: int)

  /** The summary line; the two handlers differ only in `lowRisk`. */
  function SummaryText(b: Body, risks: seq<string>, lowRisk: string): string {
    var repo := if b.repo.Some? then b.repo.value else JNull;
    var prNumber := if b.prNumber.Some? then b.prNumber.value else JNull;
    "Mock analysis for " + JsString(repo) + " PR #" + JsString(prNumber) + " — " +
    (if risks != [] then "issues found" else lowRisk)
  }

  /** The body check and the deterministic analysis that both handlers run once authorised. */
  method Analyze(body: Option<Body>, lowRisk: string) returns (reply: Reply)
    ensures !Identified(BodyOf(body)) ==> reply == Failure(400, MISSING_FIELDS)
    ensures Identified(BodyOf(body)) ==>
      var b := BodyOf(body);
      reply.Report? &&
      reply.risks == Risks(b) &&
      reply.suggestions == BasicRules.Suggestions(LintPassed(b), reply.risks) &&
      reply.healthDelta == BasicRules.HealthDelta(reply.risks) &&
      reply.summary == SummaryText(b, reply.risks, lowRisk)
  {
    var b := BodyOf(body);
    if !JsTruthy(b.repo) || !JsTruthy(b.prNumber) {
      return Failure(400, MISSING_FIELDS);
    }
    var lintPassed := if b.lintPassed.Some? then JsTruthy(b.lintPassed) else true;
    var diff := if b.diff.Some? then b.diff.value else "";
    var risks, suggestions := BasicRules.Assess(LINT_LABEL, lintPassed, Utf16Length(diff), Additions(b), Deletions(b));
    var healthDelta := if |risks| > 0 then -5 else 0;
    reply := Report(SummaryText(b, risks, lowRisk), risks, suggestions, healthDelta);
  }

  /**
   * A body without a truthy repo and pull-request number is refused,
   * including pull request number 0 and an empty repo name, which
   * JavaScript reads as false.
   */
  lemma FalsyIdentifiersRefused(b: Body)
    ensures b.prNumber == Some(JInt(0)) ==> !Identified(b)
    ensures b.repo == Some(JStr("")) ==> !Identified(b)
    ensures b.prNumber.None? || b.repo.None? ==> !Identified(b)
  {
  }
}

/** `backend/src/https-server.js`: the Express server's guard and `/analyze-pr` route. */
module MockServer {
  import opened Wrappers
  import opened Text
  import opened JsRequest

  const MISSING_AUTH: string := "missing auth"
  const FORBIDDEN: string := "forbidden"

  datatype Guard = Proceed | Reject(status: int, error: string)

  /** `checkAuth`: 401 without the bearer prefix, 403 for a wrong token, otherwise on to the route. */
  function CheckAuth(header: Option<string>, secret: string): (g: Guard)
    ensures g == Reject(401, MISSING_AUTH) <==> BearerToken(AuthHeader(header)).None?
    ensures g == Reject(403, FORBIDDEN) <==> BearerToken(AuthHeader(header)).Some? && BearerToken(AuthHeader(header)).value != secret
    ensures g == Proceed <==> BearerToken(AuthHeader(header)) == Some(secret)
  {
    var auth := AuthHeader(header);
    if !(BEARER <= auth) then Reject(401, MISSING_AUTH)
    else if Strip(auth[|BEARER|..], JsWhitespace) != secret then Reject(403, FORBIDDEN)
    else Proceed
  }

  /** A request without any authorization header is refused with 401. */
  lemma NoHeaderUnauthorized(secret: string)
    ensures CheckAuth(None, secret) == Reject(401, MISSING_AUTH)
  {
    assert !(BEARER <= "");
  }

  /** `POST /analyze-pr` behind `checkAuth`; `env` is BACKEND_SECRET. */
  method HandleAnalyzePr(header: Option<string>, env: Option<string>, body: Option<Body>) returns (reply: Reply)
    ensures CheckAuth(header, Secret(env)).Reject? ==>
      reply == Failure(CheckAuth(header, Secret(env)).status, CheckAuth(header, Secret(env)).error)
    ensures CheckAuth(header, Secret(env)) == Proceed && !Identified(BodyOf(body)) ==>
      reply == Failure(400, MISSING_FIELDS)
    ensures CheckAuth(header, Secret(env)) == Proceed && Identified(BodyOf(body)) ==>
      var b := BodyOf(body);
      reply.Report? &&
      reply.risks == Risks(b) &&
      reply.suggestions == BasicRules.Suggestions(LintPassed(b), reply.risks) &&
      reply.healthDelta == BasicRules.HealthDelta(reply.risks) &&
      reply.summary == SummaryText(b, reply.risks, "looks low risk")
  {
    var guard := CheckAuth(header, Secret(env));
    if guard.Reject? {
      return Failure(guard.status, guard.error);
    }
    reply := Analyze(body, "looks low risk");
  }
}

/** `backend/api/analyze-pr.js`: the serverless variant of the same route. */
module ServerlessHandler {
  import opened Wrappers
  import opened Text
  import opened JsRequest

  const METHOD_NOT_ALLOWED: string := "method not allowed"
  const UNAUTHORIZED: string := "unauthorized"

  /**
   * The handler: 405 for anything but POST, then 401 for a missing
   * prefix or a wrong token alike (no 403 here), then the shared body
   * check and analysis, whose low-risk summary ends in "low risk".
   */
  method Handle(httpMethod: string, header: Option<string>, env: Option<string>, body: Option<Body>)
    returns (reply: Reply)
    ensures httpMethod != "POST" ==> reply == Failure(405, METHOD_NOT_ALLOWED)
    ensures httpMethod == "POST" && BearerToken(AuthHeader(header)) != Some(Secret(env)) ==>
      reply == Failure(401, UNAUTHORIZED)
    ensures httpMethod == "POST" && BearerToken(AuthHeader(header)) == Some(Secret(env)) && !Identified(BodyOf(body)) ==>
      reply == Failure(400, MISSING_FIELDS)
    ensures httpMethod == "POST" && BearerToken(AuthHeader(header)) == Some(Secret(env)) && Identified(BodyOf(body)) ==>
      var b := BodyOf(body);
      reply.Report? &&
      reply.risks == Risks(b) &&
      reply.suggestions == BasicRules.Suggestions(LintPassed(b), reply.risks) &&
      reply.healthDelta == BasicRules.HealthDelta(reply.risks) &&
      reply.summary == SummaryText(b, reply.risks, "low risk")
  {
    if httpMethod != "POST" {
      return Failure(405, METHOD_NOT_ALLOWED);
    }
    var auth := AuthHeader(header);
    var secret := Secret(env);
    if !(BEARER <= auth) || Strip(auth[|BEARER|..], JsWhitespace) != secret {
      return Failure(401, UNAUTHORIZED);
    }
    reply := Analyze(body, "low risk");
  }
}
