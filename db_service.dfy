/**
 * The persistence service (`backend-db`): it coerces and validates the
 * request, applies the three-condition rules, folds the result into the
 * repository summary (in memory, or through the store's pipeline update)
 * and appends the pull request to the history log.
 */
module DbService {
  import opened Wrappers
  import opened Text
  import opened Json
  import opened HealthModel
  import opened BasicRules
  import opened MemoryStore
  import opened SummaryPipeline

  /** The keys of the request payload. */
  const REPO_KEY: string := "repo"
  const PR_NUMBER_KEY: string := "pr_number"
  const ADDITIONS_KEY: string := "additions"
  const DELETIONS_KEY: string := "deletions"
  const CHANGED_FILES_KEY: string := "changed_files"
  const AUTHOR_KEY: string := "author"
  const DIFF_KEY: string := "diff"
  /** The author of a request that names none. */
  const UNKNOWN_AUTHOR: string := "unknown"

  /** The request keys `_coerce_payload` passes through Python `int()`. */
  const INT_KEYS: seq<string> := [PR_NUMBER_KEY, ADDITIONS_KEY, DELETIONS_KEY, CHANGED_FILES_KEY]
  /** The lowercase strings that read as a passed lint. */
  const LINT_TRUE: set<string> := {"1", "true", "yes", "y", "t"}
  const LINT_KEY: string := "lint_passed"

  /** An int key's value after coercion: the parsed integer, or the value as given when `int()` raises. */
  function CoerceInt(v: Json): Json {
    if PyInt(v).Some? then JInt(PyInt(v).value) else v
  }

  /** `lint_passed` after coercion: a string by its lowercase spelling, anything else by truthiness. */
  function CoerceLint(v: Json): Json {
    if v.JStr? then JBool(Lower(v.s) in LINT_TRUE) else JBool(PyTruthy(v))
  }

  /** The payload `_coerce_payload` returns for `raw`. */
  function Coerced(raw: map<string, Json>): (p: map<string, Json>)
    ensures p.Keys == raw.Keys
    ensures forall k :: k in raw && k in INT_KEYS ==>
              (p[k].JInt? <==> PyInt(raw[k]).Some?) &&
              (PyInt(raw[k]).Some? ==> p[k] == JInt(PyInt(raw[k]).value)) &&
              (PyInt(raw[k]).None? ==> p[k] == raw[k])
    ensures LINT_KEY in raw ==>
              p[LINT_KEY].JBool? &&
              (raw[LINT_KEY].JStr? ==> (p[LINT_KEY].b <==> Lower(raw[LINT_KEY].s) in LINT_TRUE)) &&
              (!raw[LINT_KEY].JStr? ==> (p[LINT_KEY].b <==> PyTruthy(raw[LINT_KEY])))
    ensures forall k :: k in raw && k !in INT_KEYS && k != LINT_KEY ==> p[k] == raw[k]
  {
    map k | k in raw :: if k in INT_KEYS then CoerceInt(raw[k]) else if k == LINT_KEY then CoerceLint(raw[k]) else raw[k]
  }

  /** `_coerce_payload`: a copy of the payload, updated key by key. */
  method CoercePayload(raw: map<string, Json>) returns (p: map<string, Json>)
    ensures p == Coerced(raw)
  {
    p := raw;
    for i := 0 to |INT_KEYS|
      invariant p.Keys == raw.Keys
      invariant forall k :: k in raw ==> p[k] == (if k in INT_KEYS[..i] then CoerceInt(raw[k]) else raw[k])
    {
      var key := INT_KEYS[i];
      assert INT_KEYS[..i + 1] == INT_KEYS[..i] + [key];
      if key in p {
        var n := PyInt(p[key]);
        if n.Some? {
          p := p[key := JInt(n.value)];
        } else {
          p := p[key := p[key]];
        }
      }
    }
    assert INT_KEYS[..|INT_KEYS|] == INT_KEYS;
    assert LINT_KEY !in INT_KEYS;
    if LINT_KEY in p {
      var v := p[LINT_KEY];
      if v.JStr? {
        p := p[LINT_KEY := JBool(Lower(v.s) in LINT_TRUE)];
      } else {
        p := p[LINT_KEY := JBool(PyTruthy(v))];
      }
    }
  }

  /** Coercing an already coerced payload changes nothing. */
  lemma CoerceIdempotent(raw: map<string, Json>)
    ensures Coerced(Coerced(raw)) == Coerced(raw)
  {
    var p := Coerced(raw);
    forall k | k in p
      ensures Coerced(p)[k] == p[k]
    {
      if k in INT_KEYS {
        if PyInt(raw[k]).Some? {
          assert p[k] == JInt(PyInt(raw[k]).value);
        }
      }
    }
  }

  /** The validated request, with its field defaults. */
  datatype PrRequest = PrRequest(
    repo: string,
    prNumber: int,
    author: string,
    additions: int,
    deletions: int,
    changedFiles: int,
    diff: string,
    lintPassed: bool)

  /** An integer field: 0 when absent; integers and booleans are accepted, anything else is a validation error. */
  function IntField(p: map<string, Json>, key: string): Option<int> {
    if key !in p then Some(0)
    else match p[key]
      case JInt(i) => Some(i)
      case JBool(b) => Some(if b then 1 else 0)
      case _ => None
  }

  /** A string field: the default when absent, a string as given, anything else a validation error. */
  function StrField(p: map<string, Json>, key: string, default: string): Option<string> {
    if key !in p then Some(default) else if p[key].JStr? then Some(p[key].s) else None
  }

  /** A boolean field: true when absent. */
  function BoolField(p: map<string, Json>, key: string): Option<bool> {
    if key !in p then Some(true) else if p[key].JBool? then Some(p[key].b) else None
  }

  /** Validation of the coerced payload into `PRRequest`: `repo` is required; unknown keys are ignored. */
  function ParseRequest(p: map<string, Json>): (r: Option<PrRequest>)
    ensures REPO_KEY !in p ==> r.None?
    ensures r.Some? ==> p[REPO_KEY] == JStr(r.value.repo)
    ensures r.Some? ==> (AUTHOR_KEY in p ==> p[AUTHOR_KEY] == JStr(r.value.author)) && (AUTHOR_KEY !in p ==> r.value.author == UNKNOWN_AUTHOR)
    ensures r.Some? ==> r.value.lintPassed == (LINT_KEY !in p || p[LINT_KEY] == JBool(true))
  {
    if REPO_KEY !in p || !p[REPO_KEY].JStr? then None
    else
      var n := IntField(p, PR_NUMBER_KEY);
      var a := IntField(p, ADDITIONS_KEY);
      var d := IntField(p, DELETIONS_KEY);
      var c := IntField(p, CHANGED_FILES_KEY);
      var au := StrField(p, AUTHOR_KEY, UNKNOWN_AUTHOR);
      var df := StrField(p, DIFF_KEY, "");
      var l := BoolField(p, LINT_KEY);
      if n.Some? && a.Some? && d.Some? && c.Some? && au.Some? && df.Some? && l.Some? then
        Some(PrRequest(p[REPO_KEY].s, n.value, au.value, a.value, d.value, c.value, df.value, l.value))
      else None
  }

  /**
   * After coercion, integer strings such as "42" are accepted for the
   * count fields, and any `lint_passed` value is accepted.
   */
  lemma CoercionAccepts(raw: map<string, Json>, repo: string, counts: seq<int>)
    requires |counts| == 4
    requires REPO_KEY in raw && raw[REPO_KEY] == JStr(repo)
    requires AUTHOR_KEY !in raw && DIFF_KEY !in raw
    requires forall i :: 0 <= i < 4 ==> INT_KEYS[i] in raw && raw[INT_KEYS[i]] == JStr(IntToString(counts[i]))
    ensures var r := ParseRequest(Coerced(raw));
      r.Some? && r.value.repo == repo &&
      r.value.prNumber == counts[0] && r.value.additions == counts[1] &&
      r.value.deletions == counts[2] && r.value.changedFiles == counts[3] &&
      r.value.author == UNKNOWN_AUTHOR && r.value.diff == ""
  {
    var p := Coerced(raw);
    KeysDistinct();
    assert p[REPO_KEY] == raw[REPO_KEY];
    CoercedIntKey(raw, 0, counts[0]);
    CoercedIntKey(raw, 1, counts[1]);
    CoercedIntKey(raw, 2, counts[2]);
    CoercedIntKey(raw, 3, counts[3]);
    assert p[REPO_KEY] == JStr(repo);
    assert AUTHOR_KEY !in p && DIFF_KEY !in p;
    assert BoolField(p, LINT_KEY).Some?;
    ParseAccepts(p, repo, counts[0], counts[1], counts[2], counts[3], UNKNOWN_AUTHOR, "", BoolField(p, LINT_KEY).value);
  }

  /** The repository key is neither an int key nor the lint key: the lengths differ. */
  lemma KeysDistinct()
    ensures REPO_KEY !in INT_KEYS && REPO_KEY != LINT_KEY
    ensures INT_KEYS == [PR_NUMBER_KEY, ADDITIONS_KEY, DELETIONS_KEY, CHANGED_FILES_KEY]
  {
    assert |REPO_KEY| == 4 && |LINT_KEY| == 11;
    assert |PR_NUMBER_KEY| == 9 && |ADDITIONS_KEY| == 9 && |DELETIONS_KEY| == 9 && |CHANGED_FILES_KEY| == 13;
  }

  /** A payload whose fields all have acceptable kinds validates to exactly those values. */
  lemma ParseAccepts(p: map<string, Json>, repo: string, n: int, a: int, d: int, c: int, author: string, diff: string, l: bool)
    requires REPO_KEY in p && p[REPO_KEY] == JStr(repo)
    requires IntField(p, PR_NUMBER_KEY) == Some(n) && IntField(p, ADDITIONS_KEY) == Some(a)
    requires IntField(p, DELETIONS_KEY) == Some(d) && IntField(p, CHANGED_FILES_KEY) == Some(c)
    requires StrField(p, AUTHOR_KEY, UNKNOWN_AUTHOR) == Some(author) && StrField(p, DIFF_KEY, "") == Some(diff)
    requires BoolField(p, LINT_KEY) == Some(l)
    ensures ParseRequest(p) == Some(PrRequest(repo, n, author, a, d, c, diff, l))
  {
  }

  lemma CoercedIntKey(raw: map<string, Json>, i: nat, n: int)
    requires i < 4 && INT_KEYS[i] in raw && raw[INT_KEYS[i]] == JStr(IntToString(n))
    ensures IntField(Coerced(raw), INT_KEYS[i]) == Some(n)
  {
    PyIntAcceptsRenderings(n);
  }

  /** The lint risk as this service words it. */
  const LINT_RISK: string := "Lint failures detected"

  /** The body of a successful `/analyze-pr` reply. */
  datatype Analysis = Analysis(
    summary: string,
    risks: seq<string>,
    suggestions: seq<string>,
    healthScoreImpact: int,
    healthDelta: int,
    prScore: int,
    overallHealth: int)

  datatype Reply = Ok(analysis: Analysis) | BadRequest(detail: string)

  /** The store collections when the document store is configured: summaries by repository, and the history documents. */
  datatype MongoState = MongoState(summaries: map<string, StoredSummary>, docs: seq<HistoryDoc>)

  function SummaryText(repo: string, prNumber: int, risks: seq<string>): string {
    "Mock analysis for " + repo + " PR #" + IntToString(prNumber) + " — " + (if risks != [] then "issues found" else "low risk")
  }

  /** The event the summary updaters read from the document built for `req`. */
  function EventOf(req: PrRequest, prScore: int, healthDelta: int, now: string): Event {
    Event(req.repo, prScore, healthDelta, req.prNumber, req.author, now)
  }

  function DocOf(req: PrRequest, now: string, risks: seq<string>, overallHealth: int): HistoryDoc {
    HistoryDoc(req.repo, now, PrScore(risks), PrScore(risks), Join(risks, ","), req.prNumber, req.author,
               req.additions, req.deletions, req.changedFiles, HealthDelta(risks), overallHealth)
  }

  /** `overall_health` from the document the store update returned. */
  function HealthOfReturned(d: StoredSummary): int {
    if d.currentHealth.Some? then d.currentHealth.value else INITIAL_REPO_HEALTH
  }

  /**
   * `analyze_pr` once the request is valid. Without the document store the
   * summary is updated in memory and the document goes to the in-memory
   * log. With it, the store's summary is updated; when that update fails,
   * the health is read from the in-memory summary, or is the initial one;
   * a failed document insert falls back to the in-memory log.
   */
  method AnalyzeValid(store: Store, mongo: Option<MongoState>, fault: StoreFault, insertFails: bool, req: PrRequest, now: string)
    returns (a: Analysis, mongo': Option<MongoState>)
    requires store.Valid()
    modifies store
    ensures store.Valid()
    ensures a.risks == Risks(LINT_RISK, req.lintPassed, |req.diff|, req.additions, req.deletions)
    ensures a.suggestions == Suggestions(req.lintPassed, a.risks)
    ensures a.prScore == PrScore(a.risks) && a.healthDelta == HealthDelta(a.risks) && a.healthScoreImpact == a.healthDelta
    ensures a.summary == SummaryText(req.repo, req.prNumber, a.risks)
    ensures mongo.None? ==>
              var ev := EventOf(req, a.prScore, a.healthDelta, now);
              mongo' == None &&
              store.summaries == old(store.summaries)[req.repo := MemStep(old(store.Lookup(req.repo)), ev, now)] &&
              store.arrivals == old(store.arrivals)[req.repo := old(store.Arrived(req.repo)) + [ev]] &&
              a.overallHealth == store.summaries[req.repo].currentHealth &&
              a.overallHealth == HealthAfter(store.arrivals[req.repo]) &&
              store.history == AppendCapped(old(store.history), DocOf(req, now, a.risks, a.overallHealth))
    ensures mongo.Some? ==>
              var ev := EventOf(req, a.prScore, a.healthDelta, now);
              var outcome := UpdateRepoSummary(true, mongo.value.summaries, fault, ev, now);
              var doc := DocOf(req, now, a.risks, a.overallHealth);
              mongo'.Some? && mongo'.value.summaries == outcome.collection &&
              store.summaries == old(store.summaries) && store.arrivals == old(store.arrivals) &&
              (outcome.returned.Some? ==> a.overallHealth == HealthOfReturned(outcome.returned.value)) &&
              (outcome.returned.None? ==> a.overallHealth == (if req.repo in store.summaries then store.summaries[req.repo].currentHealth else INITIAL_REPO_HEALTH)) &&
              (insertFails ==> mongo'.value.docs == mongo.value.docs && store.history == AppendCapped(old(store.history), doc)) &&
              (!insertFails ==> mongo'.value.docs == mongo.value.docs + [doc] && store.history == old(store.history))
  {
    var risks, suggestions := Assess(LINT_RISK, req.lintPassed, |req.diff|, req.additions, req.deletions);
    var summary := SummaryText(req.repo, req.prNumber, risks);
    var prScore := if |risks| == 0 then 10 else 0;
    var healthDelta := if |risks| == 0 then 0 else -5;
    var ev := EventOf(req, prScore, healthDelta, now);
    var overall: int;
    if mongo.None? {
      store.UpdateSummaryWithDoc(ev, now);
      overall := store.summaries[req.repo].currentHealth;
      assert Accounts(req.repo, store.summaries[req.repo], store.arrivals[req.repo]);
      var doc := DocOf(req, now, risks, overall);
      store.AppendHistory(doc);
      mongo' := None;
    } else {
      var outcome := UpdateRepoSummary(true, mongo.value.summaries, fault, ev, now);
      if outcome.returned.Some? {
        overall := HealthOfReturned(outcome.returned.value);
      } else if req.repo in store.summaries {
        overall := store.summaries[req.repo].currentHealth;
      } else {
        overall := INITIAL_REPO_HEALTH;
      }
      var doc := DocOf(req, now, risks, overall);
      if insertFails {
        store.AppendHistory(doc);
        mongo' := Some(MongoState(outcome.collection, mongo.value.docs));
      } else {
        mongo' := Some(MongoState(outcome.collection, mongo.value.docs + [doc]));
      }
    }
    a := Analysis(summary, risks, suggestions, healthDelta, healthDelta, prScore, overall);
  }

  /**
   * The `/analyze-pr` endpoint: a body that is not JSON, or not a JSON
   * object, or that fails validation after coercion is a 400; otherwise
   * the analysis above.
   */
  method AnalyzePr(store: Store, mongo: Option<MongoState>, fault: StoreFault, insertFails: bool, body: Option<Json>, now: string)
    returns (reply: Reply, mongo': Option<MongoState>)
    requires store.Valid()
    modifies store
    ensures store.Valid()
    ensures body.None? ==> reply == BadRequest("Invalid or missing JSON body")
    ensures body.Some? && !body.value.JObj? ==> reply == BadRequest("JSON body must be an object")
    ensures reply.Ok? <==> body.Some? && body.value.JObj? && ParseRequest(Coerced(body.value.fields)).Some?
    ensures reply.BadRequest? ==>
              mongo' == mongo && store.summaries == old(store.summaries) && store.arrivals == old(store.arrivals) &&
              store.history == old(store.history)
    ensures reply.Ok? ==>
              var (req, a) := (ParseRequest(Coerced(body.value.fields)).value, reply.analysis);
              a.risks == Risks(LINT_RISK, req.lintPassed, |req.diff|, req.additions, req.deletions) &&
              a.suggestions == Suggestions(req.lintPassed, a.risks) &&
              a.prScore == PrScore(a.risks) && a.healthDelta == HealthDelta(a.risks) && a.healthScoreImpact == a.healthDelta &&
              a.summary == SummaryText(req.repo, req.prNumber, a.risks)
    ensures reply.Ok? && mongo.None? ==>
              var (req, a) := (ParseRequest(Coerced(body.value.fields)).value, reply.analysis);
              var ev := EventOf(req, a.prScore, a.healthDelta, now);
              mongo' == None &&
              store.summaries == old(store.summaries)[req.repo := MemStep(old(store.Lookup(req.repo)), ev, now)] &&
              store.arrivals == old(store.arrivals)[req.repo := old(store.Arrived(req.repo)) + [ev]] &&
              a.overallHealth == store.summaries[req.repo].currentHealth &&
              a.overallHealth == HealthAfter(store.arrivals[req.repo]) &&
              store.history == AppendCapped(old(store.history), DocOf(req, now, a.risks, a.overallHealth))
    ensures reply.Ok? && mongo.Some? ==>
              var (req, a) := (ParseRequest(Coerced(body.value.fields)).value, reply.analysis);
              var ev := EventOf(req, a.prScore, a.healthDelta, now);
              var outcome := UpdateRepoSummary(true, mongo.value.summaries, fault, ev, now);
              var doc := DocOf(req, now, a.risks, a.overallHealth);
              mongo'.Some? && mongo'.value.summaries == outcome.collection &&
              store.summaries == old(store.summaries) && store.arrivals == old(store.arrivals) &&
              (outcome.returned.Some? ==> a.overallHealth == HealthOfReturned(outcome.returned.value)) &&
              (outcome.returned.None? ==> a.overallHealth == (if req.repo in store.summaries then store.summaries[req.repo].currentHealth else INITIAL_REPO_HEALTH)) &&
              (insertFails ==> mongo'.value.docs == mongo.value.docs && store.history == AppendCapped(old(store.history), doc)) &&
              (!insertFails ==> mongo'.value.docs == mongo.value.docs + [doc] && store.history == old(store.history))
  {
    mongo' := mongo;
    if body.None? {
      reply := BadRequest("Invalid or missing JSON body");
    } else if !body.value.JObj? {
      reply := BadRequest("JSON body must be an object");
    } else {
      var coerced := CoercePayload(body.value.fields);
      var req := ParseRequest(coerced);
      if req.None? {
        reply := BadRequest("Invalid request payload");
      } else {
        var a;
        a, mongo' := AnalyzeValid(store, mongo, fault, insertFails, req.value, now);
        reply := Ok(a);
      }
    }
  }
}
