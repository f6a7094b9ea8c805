/**
 * The review service (`backend-ai`): it reads the language model's JSON
 * answer, normalises its fields, records the pull request in the document
 * store, and renders the review comment; when the model path raises, the
 * deterministic three-condition rules answer instead.
 */
module AiService {
  import opened Wrappers
  import opened Text
  import opened Json
  import opened HealthModel
  import opened BasicRules
  import opened Formatting
  import opened SummaryPipeline

  /**
   * The text handed to the JSON decoder: from the first '{' through the
   * last '}' when the answer holds both (empty when the last '}' comes
   * before the first '{'), else the whole answer.
   */
  function ExtractJsonCandidate(raw: string): (r: string)
    ensures '{' !in raw || '}' !in raw ==> r == raw
    ensures '{' in raw && '}' in raw ==> r == [] || (|r| >= 2 && r[0] == '{' && r[|r| - 1] == '}')
  {
    var start := IndexOf(raw, '{');
    var last := LastIndexOf(raw, '}');
    if start.None? || last.None? then raw
    else if start.value <= last.value then raw[start.value..last.value + 1]
    else []
  }

  /** An object wrapped in text free of '{' before it and of '}' after it (a Markdown fence, say) is extracted exactly. */
  lemma ExtractFramed(prefix: string, body: string, suffix: string)
    requires '{' !in prefix && '}' !in suffix
    requires |body| >= 2 && body[0] == '{' && body[|body| - 1] == '}'
    ensures ExtractJsonCandidate(prefix + body + suffix) == body
  {
    var raw := prefix + body + suffix;
    var i := |prefix|;
    var j := |prefix| + |body| - 1;
    assert raw[i] == '{' && raw[j] == '}';
    assert raw[i..j + 1] == body;
  }

  /** The last '}' before the first '{': Python's slice is empty. */
  lemma ExtractReversed(a: string, b: string, c: string)
    requires '{' !in a + b && '}' !in b + c
    ensures ExtractJsonCandidate(a + "}" + b + "{" + c) == ""
  {
    var raw := a + "}" + b + "{" + c;
    var i := |a| + 1 + |b|;
    var j := |a|;
    assert raw[i] == '{' && raw[j] == '}';
  }

  /** `x` brought into `[lo, hi]`. */
  function Bounded(x: int, lo: int, hi: int): int {
    if x < lo then lo else if x > hi then hi else x
  }

  /** The score normalisation in `analyze_pr`: `pr_score` into [0, 10], `health_delta` into [-5, 5]. */
  method ClampScores(prScore: int, healthDelta: int) returns (p: int, h: int)
    ensures p == Bounded(prScore, 0, 10) && h == Bounded(healthDelta, -5, 5)
    ensures 0 <= p <= 10 && -5 <= h <= 5
    ensures 0 <= prScore <= 10 ==> p == prScore
    ensures prScore < 0 ==> p == 0
    ensures prScore > 10 ==> p == 10
    ensures -5 <= healthDelta <= 5 ==> h == healthDelta
    ensures healthDelta < -5 ==> h == -5
    ensures healthDelta > 5 ==> h == 5
  {
    p := prScore;
    if p < 0 {
      p := 0;
    }
    if p > 10 {
      p := 10;
    }
    h := healthDelta;
    if h < -5 {
      h := -5;
    }
    if h > 5 {
      h := 5;
    }
  }

  /** `[r.strip() for r in parts if r.strip()]`. */
  function StrippedParts(parts: seq<string>): (r: seq<string>)
    ensures |r| <= |parts|
    decreases |parts|
  {
    if parts == [] then []
    else
      var t := Strip(parts[0], PyWhitespace);
      (if t != [] then [t] else []) + StrippedParts(parts[1..])
  }

  /** The kept parts are non-empty and stripped. */
  lemma {:induction false} StrippedPartsClean(parts: seq<string>)
    ensures forall x :: x in StrippedParts(parts) ==> x != [] && x[0] !in PyWhitespace && x[|x| - 1] !in PyWhitespace
    decreases |parts|
  {
    if parts != [] {
      var t := Strip(parts[0], PyWhitespace);
      var rest := StrippedParts(parts[1..]);
      assert t != [] ==> t[0] !in PyWhitespace && t[|t| - 1] !in PyWhitespace by {
        StripEnds(parts[0], PyWhitespace);
        var i :| StrippedAt(parts[0], t, i, PyWhitespace);
      }
      StrippedPartsClean(parts[1..]);
      assert StrippedParts(parts) == (if t != [] then [t] else []) + rest;
    }
  }

  /** Each part is handled on its own: the kept parts of a concatenation are those of each half, in order. */
  lemma {:induction false} StrippedPartsAppend(a: seq<string>, b: seq<string>)
    ensures StrippedParts(a + b) == StrippedParts(a) + StrippedParts(b)
    decreases |a|
  {
    if a == [] {
      assert a + b == b;
    } else {
      var t := Strip(a[0], PyWhitespace);
      var h := if t != [] then [t] else [];
      assert StrippedParts(a + b) == h + StrippedParts(a[1..] + b) by {
        assert (a + b)[0] == a[0] && (a + b)[1..] == a[1..] + b;
      }
      assert StrippedParts(a[1..] + b) == StrippedParts(a[1..]) + StrippedParts(b) by {
        StrippedPartsAppend(a[1..], b);
      }
      assert StrippedParts(a) == h + StrippedParts(a[1..]);
      AppendAssoc(h, StrippedParts(a[1..]), StrippedParts(b));
    }
  }

  /** Proof helper: sequence concatenation is associative, stated on abstract operands. */
  lemma AppendAssoc<T>(x: seq<T>, y: seq<T>, z: seq<T>)
    ensures x + (y + z) == (x + y) + z
  {
  }

  /** Every part that is not blank is kept, stripped. */
  lemma {:induction false} StrippedPartsKeeps(parts: seq<string>)
    ensures forall i :: 0 <= i < |parts| && Strip(parts[i], PyWhitespace) != [] ==> Strip(parts[i], PyWhitespace) in StrippedParts(parts)
    decreases |parts|
  {
    if parts != [] {
      var t := Strip(parts[0], PyWhitespace);
      var tail := parts[1..];
      StrippedPartsKeeps(tail);
      assert StrippedParts(parts) == (if t != [] then [t] else []) + StrippedParts(tail);
      forall i | 1 <= i < |parts| && Strip(parts[i], PyWhitespace) != []
        ensures Strip(parts[i], PyWhitespace) in StrippedParts(parts)
      {
        assert parts[i] == tail[i - 1];
      }
    }
  }

  /** Nothing but a stripped part is kept. */
  lemma {:induction false} StrippedPartsSources(parts: seq<string>)
    ensures forall x :: x in StrippedParts(parts) ==> exists i :: 0 <= i < |parts| && x == Strip(parts[i], PyWhitespace)
    decreases |parts|
  {
    if parts != [] {
      var t := Strip(parts[0], PyWhitespace);
      var tail := parts[1..];
      StrippedPartsSources(tail);
      assert StrippedParts(parts) == (if t != [] then [t] else []) + StrippedParts(tail);
      forall x | x in StrippedParts(parts)
        ensures exists i :: 0 <= i < |parts| && x == Strip(parts[i], PyWhitespace)
      {
        if x in StrippedParts(tail) {
          var j :| 0 <= j < |tail| && x == Strip(tail[j], PyWhitespace);
          assert tail[j] == parts[j + 1];
        } else {
          assert x == Strip(parts[0], PyWhitespace);
        }
      }
    }
  }

  /** Stripping adds no character, so comma-free parts stay comma-free. */
  lemma {:induction false} StrippedPartsNoComma(parts: seq<string>)
    requires forall i :: 0 <= i < |parts| ==> ',' !in parts[i]
    ensures forall x :: x in StrippedParts(parts) ==> ',' !in x
    decreases |parts|
  {
    if parts != [] {
      var t := Strip(parts[0], PyWhitespace);
      var rest := StrippedParts(parts[1..]);
      if ',' in t {
        StripKeeps(parts[0], PyWhitespace, ',');
      }
      StrippedPartsNoComma(parts[1..]);
      assert StrippedParts(parts) == (if t != [] then [t] else []) + rest;
    }
  }

  function AsJsonStrings(xs: seq<string>): (r: seq<Json>)
    ensures |r| == |xs| && forall i :: 0 <= i < |xs| ==> r[i] == JStr(xs[i])
  {
    seq(|xs|, i requires 0 <= i < |xs| => JStr(xs[i]))
  }

  /**
   * `risks` as the model gave it: a list is kept as is; a string is split
   * on commas, each part stripped and empty parts dropped; anything else
   * (or nothing) is the empty list.
   */
  function CoerceRisks(v: Option<Json>): (r: seq<Json>)
    ensures v.None? ==> r == []
    ensures v.Some? && v.value.JList? ==> r == v.value.items
    ensures v.Some? && v.value.JStr? ==>
              |r| <= |Split(v.value.s, ',')| &&
              forall x :: x in r ==> x.JStr? && x.s != [] && ',' !in x.s && Strip(x.s, PyWhitespace) == x.s
    ensures v.Some? && !v.value.JList? && !v.value.JStr? ==> r == []
  {
    if v.None? then []
    else match v.value
      case JList(items) => items
      case JStr(s) =>
        var parts := Split(s, ',');
        SplitPartsFree(s, ',');
        var kept := StrippedParts(parts);
        StrippedPartsClean(parts);
        StrippedPartsNoComma(parts);
        forall x | x in kept
          ensures Strip(x, PyWhitespace) == x
        {
          StripUntouched(x, PyWhitespace);
        }
        AsJsonStrings(kept)
      case _ => []
  }

  /** Comma-joined risk names that are already stripped come back as the same list. */
  lemma RisksRoundTrip(names: seq<string>)
    requires forall x :: x in names ==> x != [] && ',' !in x && x[0] !in PyWhitespace && x[|x| - 1] !in PyWhitespace
    ensures CoerceRisks(Some(JStr(Join(names, ",")))) == AsJsonStrings(names)
  {
    var joined := Join(names, ",");
    if names == [] {
      assert Split(joined, ',') == [""];
      assert StrippedParts([""]) == [];
    } else {
      JoinSplit(names, ',');
      assert forall i :: 0 <= i < |names| ==> names[i] in names && Unpadded(names[i]);
      StrippedIdentity(names);
      assert StrippedParts(Split(joined, ',')) == names;
    }
    assert CoerceRisks(Some(JStr(joined))) == AsJsonStrings(StrippedParts(Split(joined, ',')));
  }

  /**
   * The string case keeps every comma-separated part that is not blank once
   * stripped, stripped, and keeps nothing else.
   */
  lemma CoerceRisksKeeps(s: string)
    ensures var (parts, r) := (Split(s, ','), CoerceRisks(Some(JStr(s))));
      (forall i :: 0 <= i < |parts| && Strip(parts[i], PyWhitespace) != [] ==>
         JStr(Strip(parts[i], PyWhitespace)) in r) &&
      (forall x :: x in r ==> exists i :: 0 <= i < |parts| && x == JStr(Strip(parts[i], PyWhitespace)))
  {
    var parts := Split(s, ',');
    var kept := StrippedParts(parts);
    var r := CoerceRisks(Some(JStr(s)));
    assert r == AsJsonStrings(kept);
    forall i | 0 <= i < |parts| && Strip(parts[i], PyWhitespace) != []
      ensures JStr(Strip(parts[i], PyWhitespace)) in r
    {
      StrippedPartsKeeps(parts);
      var j :| 0 <= j < |kept| && kept[j] == Strip(parts[i], PyWhitespace);
      assert r[j] == JStr(kept[j]);
    }
    forall x | x in r
      ensures exists i :: 0 <= i < |parts| && x == JStr(Strip(parts[i], PyWhitespace))
    {
      var j :| 0 <= j < |r| && r[j] == x;
      assert kept[j] in kept;
      StrippedPartsSources(parts);
      var i :| 0 <= i < |parts| && kept[j] == Strip(parts[i], PyWhitespace);
      assert x == JStr(Strip(parts[i], PyWhitespace));
    }
  }

  /** A name with no whitespace at either end, which stripping leaves alone. */
  predicate Unpadded(x: string) {
    x != [] && x[0] !in PyWhitespace && x[|x| - 1] !in PyWhitespace
  }

  lemma {:induction false} StrippedIdentity(names: seq<string>)
    requires forall i :: 0 <= i < |names| ==> Unpadded(names[i])
    ensures StrippedParts(names) == names
    decreases |names|
  {
    if names != [] {
      assert Unpadded(names[0]);
      StripUntouched(names[0], PyWhitespace);
      var rest := names[1..];
      assert forall i :: 0 <= i < |rest| ==> rest[i] == names[i + 1];
      StrippedIdentity(rest);
      assert StrippedParts(names) == [names[0]] + StrippedParts(rest);
      assert [names[0]] + rest == names;
    }
  }

  /** The strings of a list, or None when an item is not a string (where `join` raises). */
  function AllStrings(items: seq<Json>): (r: Option<seq<string>>)
    ensures r.Some? <==> forall i :: 0 <= i < |items| ==> items[i].JStr?
    ensures r.Some? ==> AsJsonStrings(r.value) == items
    decreases |items|
  {
    if items == [] then Some([])
    else if !items[0].JStr? then None
    else
      var rest := AllStrings(items[1..]);
      if rest.None? then None else Some([items[0].s] + rest.value)
  }

  const PY_NONE: string := "None"
  const PY_TRUE: string := "True"
  const PY_FALSE: string := "False"
  const LIST_PLACEHOLDER: string := "[...]"
  const OBJECT_PLACEHOLDER: string := "{...}"

  /** Python `str(v)` for the scalar values a comment shows; lists and objects get a fixed placeholder. */
  function PyStr(v: Json): string {
    match v
    case JNull => PY_NONE
    case JBool(b) => if b then PY_TRUE else PY_FALSE
    case JInt(i) => IntToString(i)
    case JStr(s) => s
    case JList(_) => LIST_PLACEHOLDER
    case JObj(_) => OBJECT_PLACEHOLDER
  }

  /** What the comment is built from; `overallHealth` is None when the stored document has no `overall_health`. */
  datatype CommentInput = CommentInput(summary: Json, risks: Json, suggestions: Json, prScore: Json, healthDelta: Json, overallHealth: Option<int>)

  /** Most suggestions the comment lists. */
  const MAX_SUGGESTIONS: nat := 10
  /** `_t`'s limit for the summary. */
  const SUMMARY_LIMIT: int := 8000

  const TITLE_LINE: string := "**Automated AI PR Review**"
  const HEALTH_LINE_PREFIX: string := "- **Post-PR overall health:** `"
  const FOOTER_LINE: string := "_This comment was posted automatically by the AI review service._"
  const SCORE_OPENING: string := "- **Score:** `"
  const DELTA_OPENING: string := "- **Health delta:** `"
  const CODE_CLOSE: string := "`"
  const SUMMARY_HEADING: string := "**Summary:**"
  const NO_SUMMARY: string := "_(no summary)_"
  const RISKS_HEADING: string := "**Risks detected:**"
  const SUGGESTIONS_HEADING: string := "**Suggestions:**"

  const BULLET: string := "- "
  const RISK_SEPARATOR: string := ", "
  const LINE_BREAK: string := "\n"

  /** The summary section: `_t(summary, 8000)`. */
  function SummaryShown(v: Json): string {
    Truncate(if v.JNull? then None else Some(PyStr(v)), SUMMARY_LIMIT)
  }

  /** The risks text: a list joined by ", " (None where an item is not a string and `join` raises), else `str(risks or "")`. */
  function RisksShown(v: Json): Option<string> {
    if v.JList? then
      var strs := AllStrings(v.items);
      if strs.None? then None else Some(Join(strs.value, RISK_SEPARATOR))
    else Some(if PyTruthy(v) then PyStr(v) else "")
  }

  /** The suggestion bullets: at most MAX_SUGGESTIONS of them. */
  function SuggestionBullets(items: seq<Json>): (lines: seq<string>)
    ensures |lines| == if |items| < MAX_SUGGESTIONS then |items| else MAX_SUGGESTIONS
    ensures forall i :: 0 <= i < |lines| ==> lines[i] == BULLET + PyStr(items[i])
  {
    var shown := SliceTo(items, MAX_SUGGESTIONS);
    Bullets(seq(|shown|, i requires 0 <= i < |shown| => PyStr(shown[i])), BULLET)
  }

  /** Suggestions after the tenth never reach the comment. */
  lemma SuggestionsCapped(items: seq<Json>)
    requires |items| > MAX_SUGGESTIONS
    ensures SuggestionBullets(items) == SuggestionBullets(items[..MAX_SUGGESTIONS])
  {
  }

  function SuggestionsShown(v: Json): string {
    if v.JList? then Join(SuggestionBullets(v.items), LINE_BREAK) else if PyTruthy(v) then PyStr(v) else ""
  }

  /** The comment's lines, in order, from the rendered parts. */
  function CommentLines(score: string, delta: string, health: Option<int>, summary: string, risks: string, suggestions: string): seq<string> {
    [TITLE_LINE, "", SCORE_OPENING + score + CODE_CLOSE, DELTA_OPENING + delta + CODE_CLOSE] +
    (if health.Some? then [HEALTH_LINE_PREFIX + IntToString(health.value) + CODE_CLOSE] else []) +
    ["", SUMMARY_HEADING, if summary == "" then NO_SUMMARY else summary, ""] +
    (if risks != "" then [RISKS_HEADING, risks, ""] else []) +
    (if suggestions != "" then [SUGGESTIONS_HEADING, suggestions, ""] else []) +
    [FOOTER_LINE]
  }

  /**
   * The fifth line is the post-PR health line, with the health, exactly
   * when the document has one; otherwise it is the blank separator. The
   * comment always opens with the title and the two score lines and ends
   * with the footer.
   */
  lemma CommentLayout(score: string, delta: string, health: Option<int>, summary: string, risks: string, suggestions: string)
    ensures var lines := CommentLines(score, delta, health, summary, risks, suggestions);
      |lines| >= 9 && lines[0] == TITLE_LINE && lines[|lines| - 1] == FOOTER_LINE &&
      lines[2] == SCORE_OPENING + score + CODE_CLOSE &&
      (health.Some? <==> HEALTH_LINE_PREFIX <= lines[4]) &&
      (health.Some? ==> lines[4] == HEALTH_LINE_PREFIX + IntToString(health.value) + CODE_CLOSE) &&
      (health.None? ==> lines[4] == "")
  {
  }

  /** Without a health the comment is the same as with one, minus that line. */
  lemma CommentHealthLineOnly(score: string, delta: string, h: int, summary: string, risks: string, suggestions: string)
    ensures var with := CommentLines(score, delta, Some(h), summary, risks, suggestions);
      var without := CommentLines(score, delta, None, summary, risks, suggestions);
      |with| == |without| + 1 && with[..4] == without[..4] && with[5..] == without[4..]
  {
  }

  /** The comment's text: its lines joined by newlines, or None where joining the risks raises. */
  function CommentText(c: CommentInput): Option<string> {
    var risks := RisksShown(c.risks);
    if risks.None? then None
    else Some(Join(CommentLines(PyStr(c.prScore), PyStr(c.healthDelta), c.overallHealth,
                                SummaryShown(c.summary), risks.value, SuggestionsShown(c.suggestions)), LINE_BREAK))
  }

  /** `_format_comment`: the lines are appended one by one and joined by newlines; None where joining the risks raises. */
  method FormatComment(c: CommentInput) returns (body: Option<string>)
    ensures body == CommentText(c)
    ensures body.None? <==> RisksShown(c.risks).None?
    ensures body.Some? ==>
              body.value == Join(CommentLines(PyStr(c.prScore), PyStr(c.healthDelta), c.overallHealth,
                                              SummaryShown(c.summary), RisksShown(c.risks).value, SuggestionsShown(c.suggestions)), LINE_BREAK)
  {
    var summary := SummaryShown(c.summary);
    var risks := RisksShown(c.risks);
    if risks.None? {
      return None;
    }
    var suggestions := SuggestionsShown(c.suggestions);
    var comment: seq<string> := [TITLE_LINE, "", SCORE_OPENING + PyStr(c.prScore) + CODE_CLOSE, DELTA_OPENING + PyStr(c.healthDelta) + CODE_CLOSE];
    if c.overallHealth.Some? {
      comment := comment + [HEALTH_LINE_PREFIX + IntToString(c.overallHealth.value) + CODE_CLOSE];
    }
    comment := comment + ["", SUMMARY_HEADING, if summary == "" then NO_SUMMARY else summary, ""];
    if risks.value != "" {
      comment := comment + [RISKS_HEADING, risks.value, ""];
    }
    if suggestions != "" {
      comment := comment + [SUGGESTIONS_HEADING, suggestions, ""];
    }
    comment := comment + [FOOTER_LINE];
    assert comment == CommentLines(PyStr(c.prScore), PyStr(c.healthDelta), c.overallHealth, summary, risks.value, suggestions);
    body := Some(Join(comment, LINE_BREAK));
  }

  /** The validated request (every field is required by this service). */
  datatype Request = Request(repo: string, prNumber: int, author: string, additions: int, deletions: int, changedFiles: int, diff: string, lintPassed: bool)

  /** A document of the history collection as this service stores it. */
  datatype AiDoc = AiDoc(
    repo: string, timestamp: string, prScore: int, reason: Json, risks: string, prNumber: int, author: string,
    additions: int, deletions: int, changedFiles: int, healthDelta: int, summary: Json, overallHealth: int)

  /** The document store's two collections when it is configured. */
  datatype AiStore = AiStore(summaries: map<string, StoredSummary>, docs: seq<AiDoc>)

  /** What recording a pull request leaves behind: the store, and the `overall_health` put on the document. */
  datatype Recorded = Recorded(store: Option<AiStore>, overallHealth: int)

  /**
   * Recording a document: the summary update, then the insert. The
   * document's `overall_health` is the returned summary's health when
   * both succeed, and `INITIAL_REPO_HEALTH + health_delta` otherwise
   * (the SQLite fallback's value).
   */
  function Record(store: Option<AiStore>, fault: StoreFault, insertFails: bool, doc: AiDoc, ev: Event, now: string): (r: Recorded)
    requires doc.repo == ev.repo && doc.healthDelta == ev.healthDelta
    ensures store.None? ==> r.store.None?
    ensures store.Some? ==> r.store.Some? && r.store.value.summaries == UpdateRepoSummary(true, store.value.summaries, fault, ev, now).collection
    ensures store.Some? && !insertFails ==> r.store.value.docs == store.value.docs + [doc.(overallHealth := r.overallHealth)]
    ensures store.Some? && insertFails ==> r.store.value.docs == store.value.docs
    ensures store.None? || insertFails || fault != NoFault ==> r.overallHealth == INITIAL_REPO_HEALTH + ev.healthDelta
  {
    if store.None? then Recorded(None, INITIAL_REPO_HEALTH + ev.healthDelta)
    else
      var outcome := UpdateRepoSummary(true, store.value.summaries, fault, ev, now);
      var health := if outcome.returned.Some? then HealthOf(outcome.returned.value) else INITIAL_REPO_HEALTH + ev.healthDelta;
      if insertFails then Recorded(Some(AiStore(outcome.collection, store.value.docs)), INITIAL_REPO_HEALTH + ev.healthDelta)
      else Recorded(Some(AiStore(outcome.collection, store.value.docs + [doc.(overallHealth := health)])), health)
  }

  /** `new_summary.get("current_health", INITIAL_REPO_HEALTH)`. */
  function HealthOf(d: StoredSummary): int {
    if d.currentHealth.Some? then d.currentHealth.value else INITIAL_REPO_HEALTH
  }

  /**
   * When the repository's stored summary accounts for the earlier events
   * (or there is none yet) and nothing fails, the recorded health is the
   * running total: INITIAL_REPO_HEALTH plus every delta so far, this one
   * included. When something fails it is the health of a first pull request.
   */
  lemma RecordedHealth(store: AiStore, fault: StoreFault, insertFails: bool, doc: AiDoc, ev: Event, evs: seq<Event>, now: string)
    requires doc.repo == ev.repo && doc.healthDelta == ev.healthDelta
    requires ev.repo in store.summaries ==> PipeAccounts(ev.repo, store.summaries[ev.repo], evs)
    requires ev.repo !in store.summaries ==> evs == []
    ensures var r := Record(Some(store), fault, insertFails, doc, ev, now);
      (fault == NoFault && !insertFails ==> r.overallHealth == HealthAfter(evs + [ev])) &&
      (fault != NoFault || insertFails ==> r.overallHealth == HealthAfter([ev]))
  {
    var prior := Find(store.summaries, ev.repo);
    PipeStepAccounts(ev.repo, prior, evs, ev, now);
    assert [] + [ev] == [ev];
    SumsAppend([], ev);
  }

  /** The reply of `/analyze-pr`. */
  datatype AiReply = AiReply(summary: Json, risks: seq<Json>, suggestions: Json, prScore: int, healthDelta: int, reason: Json, comment: string)

  /** The fields of the model's answer. */
  const SUMMARY_KEY: string := "summary"
  const RISKS_KEY: string := "risks"
  const SUGGESTIONS_KEY: string := "suggestions"
  const PR_SCORE_KEY: string := "pr_score"
  const HEALTH_DELTA_KEY: string := "health_delta"
  const REASON_KEY: string := "reason"

  function Get(m: map<string, Json>, key: string, default: Json): Json {
    if key in m then m[key] else default
  }

  function GetOpt(m: map<string, Json>, key: string): Option<Json> {
    if key in m then Some(m[key]) else None
  }

  /** The comment the model path builds from the model's answer, given the health the document carries. */
  function ModelComment(parsed: map<string, Json>, p: int, h: int, health: Option<int>): CommentInput {
    CommentInput(Get(parsed, SUMMARY_KEY, JStr("")), Get(parsed, RISKS_KEY, JList([])),
                 Get(parsed, SUGGESTIONS_KEY, JList([])), Get(parsed, PR_SCORE_KEY, JInt(p)),
                 Get(parsed, HEALTH_DELTA_KEY, JInt(h)), health)
  }

  /** What a path of `analyze_pr` answers, with the store it leaves behind. */
  datatype Answer = Answer(reply: AiReply, store: Option<AiStore>)

  /**
   * The model path of `analyze_pr`, from the decoded answer `parsed`: None
   * where the source raises (an unreadable score or delta, a risk that is
   * not a string). The comment is rendered before anything is recorded, so
   * it carries no health line (see README, Findings).
   */
  function ModelAnswer(req: Request, parsed: map<string, Json>, store: Option<AiStore>, fault: StoreFault, insertFails: bool, now: string): Option<Answer> {
    var rawScore := PyInt(Get(parsed, PR_SCORE_KEY, JInt(0)));
    var rawDelta := PyInt(Get(parsed, HEALTH_DELTA_KEY, JInt(0)));
    var risks := CoerceRisks(GetOpt(parsed, RISKS_KEY));
    var names := AllStrings(risks);
    if rawScore.None? || rawDelta.None? || names.None? then None
    else
      var (p, h) := (Bounded(rawScore.value, 0, 10), Bounded(rawDelta.value, -5, 5));
      var comment := CommentText(ModelCommentAsWritten(parsed, p, h));
      if comment.None? then None
      else
        var reason := Get(parsed, REASON_KEY, JStr(Join(names.value, RISK_SEPARATOR)));
        var summary := Get(parsed, SUMMARY_KEY, JStr(""));
        var doc := AiDoc(req.repo, now, p, reason, Join(names.value, ","), req.prNumber, req.author,
                         req.additions, req.deletions, req.changedFiles, h, summary, INITIAL_REPO_HEALTH + h);
        var recorded := Record(store, fault, insertFails, doc, Event(req.repo, p, h, req.prNumber, req.author, now), now);
        Some(Answer(AiReply(summary, risks, Get(parsed, SUGGESTIONS_KEY, JList([])), p, h, reason, comment.value), recorded.store))
  }

  /**
   * What the model path promises: unreadable numbers raise; otherwise the
   * score and delta are clamped into range (kept when already in it), the
   * risks are the coerced ones and all strings, the reason defaults to the
   * risks joined by ", ", the comment is the one rendered without a health
   * line, and the store's summary takes one pipeline step.
   */
  lemma ModelAnswerMeaning(req: Request, parsed: map<string, Json>, store: Option<AiStore>, fault: StoreFault, insertFails: bool, now: string)
    ensures var a := ModelAnswer(req, parsed, store, fault, insertFails, now);
      (PyInt(Get(parsed, PR_SCORE_KEY, JInt(0))).None? || PyInt(Get(parsed, HEALTH_DELTA_KEY, JInt(0))).None? ==> a.None?) &&
      (a.Some? ==> (
         var (reply, rawScore, rawDelta) := (a.value.reply, PyInt(Get(parsed, PR_SCORE_KEY, JInt(0))).value, PyInt(Get(parsed, HEALTH_DELTA_KEY, JInt(0))).value);
         0 <= reply.prScore <= 10 && -5 <= reply.healthDelta <= 5 &&
         (0 <= rawScore <= 10 ==> reply.prScore == rawScore) &&
         (-5 <= rawDelta <= 5 ==> reply.healthDelta == rawDelta) &&
         reply.risks == CoerceRisks(GetOpt(parsed, RISKS_KEY)) &&
         AllStrings(reply.risks).Some? &&
         reply.reason == Get(parsed, REASON_KEY, JStr(Join(AllStrings(reply.risks).value, RISK_SEPARATOR))) &&
         reply.summary == Get(parsed, SUMMARY_KEY, JStr("")) &&
         reply.suggestions == Get(parsed, SUGGESTIONS_KEY, JList([])) &&
         reply.comment == CommentText(ModelCommentAsWritten(parsed, reply.prScore, reply.healthDelta)).value &&
         (store.Some? <==> a.value.store.Some?) &&
         var ev := Event(req.repo, reply.prScore, reply.healthDelta, req.prNumber, req.author, now);
         (store.Some? ==> a.value.store.value.summaries == UpdateRepoSummary(true, store.value.summaries, fault, ev, now).collection)))
  {
  }

  /**
   * `analyze_pr`'s model path, step by step; None (with the store as it
   * was) where the source raises and hands over to the deterministic rules.
   */
  method AnalyzeWithModel(req: Request, parsed: map<string, Json>, store: Option<AiStore>, fault: StoreFault, insertFails: bool, now: string)
    returns (reply: Option<AiReply>, store': Option<AiStore>)
    ensures reply.Some? <==> ModelAnswer(req, parsed, store, fault, insertFails, now).Some?
    ensures reply.Some? ==> ModelAnswer(req, parsed, store, fault, insertFails, now).value == Answer(reply.value, store')
    ensures reply.None? ==> store' == store
  {
    var rawScore := PyInt(Get(parsed, PR_SCORE_KEY, JInt(0)));
    if rawScore.None? {
      return None, store;
    }
    var rawDelta := PyInt(Get(parsed, HEALTH_DELTA_KEY, JInt(0)));
    if rawDelta.None? {
      return None, store;
    }
    var p, h := ClampScores(rawScore.value, rawDelta.value);
    var risks := CoerceRisks(GetOpt(parsed, RISKS_KEY));
    var names := AllStrings(risks);
    if names.None? {
      return None, store;
    }
    var reason := Get(parsed, REASON_KEY, JStr(Join(names.value, RISK_SEPARATOR)));
    var summary := Get(parsed, SUMMARY_KEY, JStr(""));
    var suggestions := Get(parsed, SUGGESTIONS_KEY, JList([]));
    var doc := AiDoc(req.repo, now, p, reason, Join(names.value, ","), req.prNumber, req.author,
                     req.additions, req.deletions, req.changedFiles, h, summary, INITIAL_REPO_HEALTH + h);
    var comment := FormatComment(ModelCommentAsWritten(parsed, p, h));
    if comment.None? {
      return None, store;
    }
    var ev := Event(req.repo, p, h, req.prNumber, req.author, now);
    var recorded := Record(store, fault, insertFails, doc, ev, now);
    reply := Some(AiReply(summary, risks, suggestions, p, h, reason, comment.value));
    store' := recorded.store;
    assert ModelAnswer(req, parsed, store, fault, insertFails, now) == Some(Answer(reply.value, store'));
  }

  /**
   * The comment as the model path builds it in the source: before the
   * document has an `overall_health`, so the health line is never there.
   */
  function ModelCommentAsWritten(parsed: map<string, Json>, p: int, h: int): (c: CommentInput)
    ensures c.overallHealth.None?
  {
    ModelComment(parsed, p, h, None)
  }

  /** As written, the model path's comment never shows the post-PR health, whatever was recorded. */
  lemma AsWrittenOmitsHealth(parsed: map<string, Json>, p: int, h: int)
    ensures var c := ModelCommentAsWritten(parsed, p, h);
      RisksShown(c.risks).Some? ==>
        CommentLines(PyStr(c.prScore), PyStr(c.healthDelta), c.overallHealth, SummaryShown(c.summary),
                     RisksShown(c.risks).value, SuggestionsShown(c.suggestions))[4] == ""
  {
  }

  /** Built after recording, the model path's comment shows the recorded health on its fifth line. */
  lemma CorrectedShowsHealth(parsed: map<string, Json>, p: int, h: int, health: int)
    ensures var c := ModelComment(parsed, p, h, Some(health));
      RisksShown(c.risks).Some? ==>
        CommentLines(PyStr(c.prScore), PyStr(c.healthDelta), c.overallHealth, SummaryShown(c.summary),
                     RisksShown(c.risks).value, SuggestionsShown(c.suggestions))[4] == HEALTH_LINE_PREFIX + IntToString(health) + CODE_CLOSE
  {
  }

  const FALLBACK_LINT_RISK: string := "Lint failures detected"

  /** The fallback's `summary`. */
  function FallbackSummary(req: Request): string {
    "Fallback analysis for " + req.repo + " PR #" + IntToString(req.prNumber)
  }

  /** The fallback's comment, showing `health` when the store recorded one. */
  function FallbackComment(req: Request, health: Option<int>): CommentInput {
    var risks := Risks(FALLBACK_LINT_RISK, req.lintPassed, |req.diff|, req.additions, req.deletions);
    CommentInput(JStr(FallbackSummary(req)), JList(AsJsonStrings(risks)), JList(AsJsonStrings(Suggestions(req.lintPassed, risks))),
                 JInt(PrScore(risks)), JInt(HealthDelta(risks)), health)
  }

  /**
   * The deterministic fallback of `analyze_pr`: the three-condition rules,
   * recorded in the store when it is configured; the comment shows the
   * recorded health only then.
   */
  function FallbackAnswer(req: Request, store: Option<AiStore>, fault: StoreFault, insertFails: bool, now: string): Answer {
    var risks := Risks(FALLBACK_LINT_RISK, req.lintPassed, |req.diff|, req.additions, req.deletions);
    var (p, h) := (PrScore(risks), HealthDelta(risks));
    var doc := AiDoc(req.repo, now, p, JStr(Join(risks, ",")), Join(risks, ","), req.prNumber, req.author,
                     req.additions, req.deletions, req.changedFiles, h, JStr(FallbackSummary(req)), INITIAL_REPO_HEALTH + h);
    var recorded := Record(store, fault, insertFails, doc, Event(req.repo, p, h, req.prNumber, req.author, now), now);
    var health := if store.Some? then Some(recorded.overallHealth) else None;
    AllStringsOf(risks);
    Answer(AiReply(JStr(FallbackSummary(req)), AsJsonStrings(risks), JList(AsJsonStrings(Suggestions(req.lintPassed, risks))),
                   p, h, JStr(Join(risks, ",")), CommentText(FallbackComment(req, health)).value),
           recorded.store)
  }

  /** A list of strings always joins. */
  lemma AllStringsOf(xs: seq<string>)
    ensures AllStrings(AsJsonStrings(xs)) == Some(xs)
  {
    var js := AsJsonStrings(xs);
    assert forall i :: 0 <= i < |js| ==> js[i].JStr?;
    var ys := AllStrings(js).value;
    assert AsJsonStrings(ys) == js;
    assert |ys| == |xs|;
    forall i | 0 <= i < |xs|
      ensures ys[i] == xs[i]
    {
      assert JStr(ys[i]) == js[i] == JStr(xs[i]);
    }
    assert ys == xs;
  }

  /**
   * The fallback's comment has its post-PR health line (the fifth) exactly
   * when it is given a health, and that line shows it.
   */
  lemma FallbackCommentLayout(req: Request, health: Option<int>)
    ensures var t := CommentText(FallbackComment(req, health));
      t.Some? &&
      exists lines :: t.value == Join(lines, LINE_BREAK) && |lines| >= 9 &&
        (health.Some? <==> HEALTH_LINE_PREFIX <= lines[4]) &&
        (health.Some? ==> lines[4] == HEALTH_LINE_PREFIX + IntToString(health.value) + CODE_CLOSE) &&
        (health.None? ==> lines[4] == "")
  {
    var c := FallbackComment(req, health);
    AllStringsOf(Risks(FALLBACK_LINT_RISK, req.lintPassed, |req.diff|, req.additions, req.deletions));
    var lines := CommentLines(PyStr(c.prScore), PyStr(c.healthDelta), c.overallHealth,
                              SummaryShown(c.summary), RisksShown(c.risks).value, SuggestionsShown(c.suggestions));
    CommentLayout(PyStr(c.prScore), PyStr(c.healthDelta), c.overallHealth,
                  SummaryShown(c.summary), RisksShown(c.risks).value, SuggestionsShown(c.suggestions));
    assert CommentText(c).value == Join(lines, LINE_BREAK);
  }

  /** The fallback's comment shows the recorded health exactly when the store is configured. */
  lemma FallbackHealthLine(req: Request, store: Option<AiStore>, fault: StoreFault, insertFails: bool, now: string)
    ensures exists health: Option<int> ::
      (health.Some? <==> store.Some?) &&
      FallbackAnswer(req, store, fault, insertFails, now).reply.comment == CommentText(FallbackComment(req, health)).value
  {
    var risks := Risks(FALLBACK_LINT_RISK, req.lintPassed, |req.diff|, req.additions, req.deletions);
    var (p, h) := (PrScore(risks), HealthDelta(risks));
    var doc := AiDoc(req.repo, now, p, JStr(Join(risks, ",")), Join(risks, ","), req.prNumber, req.author,
                     req.additions, req.deletions, req.changedFiles, h, JStr(FallbackSummary(req)), INITIAL_REPO_HEALTH + h);
    var recorded := Record(store, fault, insertFails, doc, Event(req.repo, p, h, req.prNumber, req.author, now), now);
    var health := if store.Some? then Some(recorded.overallHealth) else None;
    assert FallbackAnswer(req, store, fault, insertFails, now).reply.comment == CommentText(FallbackComment(req, health)).value;
  }

  /** `analyze_pr`'s fallback, step by step. */
  method AnalyzeFallback(req: Request, store: Option<AiStore>, fault: StoreFault, insertFails: bool, now: string)
    returns (reply: AiReply, store': Option<AiStore>)
    ensures Answer(reply, store') == FallbackAnswer(req, store, fault, insertFails, now)
    ensures reply.risks == AsJsonStrings(Risks(FALLBACK_LINT_RISK, req.lintPassed, |req.diff|, req.additions, req.deletions))
    ensures reply.suggestions == JList(AsJsonStrings(Suggestions(req.lintPassed, Risks(FALLBACK_LINT_RISK, req.lintPassed, |req.diff|, req.additions, req.deletions))))
    ensures var risks := Risks(FALLBACK_LINT_RISK, req.lintPassed, |req.diff|, req.additions, req.deletions);
      reply.prScore == PrScore(risks) && reply.healthDelta == HealthDelta(risks) && reply.reason == JStr(Join(risks, ","))
    ensures reply.summary == JStr(FallbackSummary(req))
    ensures store.None? <==> store'.None?
    ensures store.Some? ==>
              store'.value.summaries == UpdateRepoSummary(true, store.value.summaries, fault,
                                          Event(req.repo, reply.prScore, reply.healthDelta, req.prNumber, req.author, now), now).collection
  {
    var risks, suggestions := Assess(FALLBACK_LINT_RISK, req.lintPassed, |req.diff|, req.additions, req.deletions);
    var summary := FallbackSummary(req);
    var p := if |risks| == 0 then 10 else 0;
    var h := if |risks| == 0 then 0 else -5;
    var ev := Event(req.repo, p, h, req.prNumber, req.author, now);
    var health: Option<int> := None;
    store' := store;
    var doc := AiDoc(req.repo, now, p, JStr(Join(risks, ",")), Join(risks, ","), req.prNumber, req.author,
                     req.additions, req.deletions, req.changedFiles, h, JStr(summary), INITIAL_REPO_HEALTH + h);
    var recorded := Record(store, fault, insertFails, doc, ev, now);
    if store.Some? {
      store' := recorded.store;
      health := Some(recorded.overallHealth);
    }
    var comment := FormatComment(CommentInput(JStr(summary), JList(AsJsonStrings(risks)), JList(AsJsonStrings(suggestions)), JInt(p), JInt(h), health));
    AllStringsOf(risks);
    assert CommentInput(JStr(summary), JList(AsJsonStrings(risks)), JList(AsJsonStrings(suggestions)), JInt(p), JInt(h), health)
        == FallbackComment(req, health);
    reply := AiReply(JStr(summary), AsJsonStrings(risks), JList(AsJsonStrings(suggestions)), p, h, JStr(Join(risks, ",")), comment.value);
  }

  /**
   * `analyze_pr`: the model path when it is enabled, the model answered
   * and the model path did not raise; otherwise the deterministic rules
   * (`parsed` is None where the model call failed).
   */
  method AnalyzePr(useAi: bool, req: Request, parsed: Option<map<string, Json>>, store: Option<AiStore>, fault: StoreFault, insertFails: bool, now: string)
    returns (reply: AiReply, store': Option<AiStore>)
    ensures useAi && parsed.Some? && ModelAnswer(req, parsed.value, store, fault, insertFails, now).Some? ==>
              Answer(reply, store') == ModelAnswer(req, parsed.value, store, fault, insertFails, now).value
    ensures !(useAi && parsed.Some? && ModelAnswer(req, parsed.value, store, fault, insertFails, now).Some?) ==>
              Answer(reply, store') == FallbackAnswer(req, store, fault, insertFails, now)
    ensures 0 <= reply.prScore <= 10 && -5 <= reply.healthDelta <= 5
    ensures !useAi || parsed.None? ==>
              reply.prScore == PrScore(Risks(FALLBACK_LINT_RISK, req.lintPassed, |req.diff|, req.additions, req.deletions))
    ensures store.None? <==> store'.None?
  {
    if useAi && parsed.Some? {
      var r;
      r, store' := AnalyzeWithModel(req, parsed.value, store, fault, insertFails, now);
      ModelAnswerMeaning(req, parsed.value, store, fault, insertFails, now);
      if r.Some? {
        return r.value, store';
      }
    }
    reply, store' := AnalyzeFallback(req, store, fault, insertFails, now);
  }
}
