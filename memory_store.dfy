/**
 * The process-local fallback store of the database-backed service:
 * per-repository summaries updated in place and a capped history log
 * of analysed pull requests.
 */
module MemoryStore {
  import opened Wrappers
  import opened Text
  import opened HealthModel

  /** Most history documents the process keeps. */
  const HISTORY_CAP: nat := 1000

  /** A summary as the in-memory store keeps it. */
  datatype Summary = Summary(
    repo: string,
    totalPrs: int,
    cumulativeScore: int,
    avgScore: real,
    currentHealth: int,
    last: Option<RecentItem>,
    recent: seq<RecentItem>,
    updatedAt: Option<string>)

  /** The entry `setdefault` creates for a repository seen for the first time. */
  function FreshSummary(repo: string): Summary {
    Summary(repo, 0, 0, 0.0, INITIAL_REPO_HEALTH, None, [], None)
  }

  /** The document stored per analysed pull request. */
  datatype HistoryDoc = HistoryDoc(
    repo: string,
    timestamp: string,
    score: int,
    prScore: int,
    reason: string,
    prNumber: int,
    author: string,
    additions: int,
    deletions: int,
    changedFiles: int,
    healthDelta: int,
    overallHealth: int)

  /** One row of the history query. */
  datatype HistoryRow = HistoryRow(timestamp: string, prNumber: int, prScore: int, healthDelta: int, overallHealth: int, reason: string)

  function RowOf(d: HistoryDoc): HistoryRow {
    HistoryRow(d.timestamp, d.prNumber, d.prScore, d.healthDelta, d.overallHealth, d.reason)
  }

  /**
   * The summary left by one in-memory update with `ev`, from the existing
   * summary `prior` or, for an unseen repository, the fresh default.
   */
  function MemStep(prior: Option<Summary>, ev: Event, now: string): Summary {
    var base := if prior.Some? then prior.value else FreshSummary(ev.repo);
    var total := base.totalPrs + 1;
    var cumulative := base.cumulativeScore + ev.prScore;
    var health := base.currentHealth + ev.healthDelta;
    var item := WithOverallHealth(ev.prNumber, ev.prScore, ev.timestamp, ev.author, health);
    var grown := [item] + base.recent;
    Summary(base.repo, total, cumulative, AvgScore(cumulative, total), health, Some(item),
            if |grown| > RECENT_LIMIT then grown[..|grown| - 1] else grown, Some(now))
  }

  /** The `recent` entries the in-memory updater would have produced for `evs`, newest first, uncut. */
  function MemItems(evs: seq<Event>): (items: seq<RecentItem>)
    ensures |items| == |evs|
    decreases |evs|
  {
    if evs == [] then []
    else
      var e := evs[|evs| - 1];
      [WithOverallHealth(e.prNumber, e.prScore, e.timestamp, e.author, HealthAfter(evs))] + MemItems(evs[..|evs| - 1])
  }

  /**
   * The summary invariants: `s` is the summary of `repo` after the
   * non-empty arrival sequence `evs`.
   */
  ghost predicate Accounts(repo: string, s: Summary, evs: seq<Event>) {
    evs != [] && AllFor(repo, evs) &&
    s.repo == repo &&
    s.totalPrs == |evs| &&
    s.cumulativeScore == SumScores(evs) &&
    s.avgScore == s.cumulativeScore as real / s.totalPrs as real &&
    s.currentHealth == HealthAfter(evs) &&
    |s.recent| == WindowSize(s.totalPrs) &&
    s.recent == SliceTo(MemItems(evs), RECENT_LIMIT) &&
    s.last == Some(s.recent[0])
  }

  /** The first update of an unseen repository starts from the fresh default: counters 1 and the event's own values. */
  lemma FirstUpdate(ev: Event, now: string)
    ensures var s := MemStep(None, ev, now);
      s.repo == ev.repo && s.totalPrs == 1 && s.cumulativeScore == ev.prScore &&
      s.avgScore == ev.prScore as real && s.currentHealth == INITIAL_REPO_HEALTH + ev.healthDelta &&
      s.recent == [WithOverallHealth(ev.prNumber, ev.prScore, ev.timestamp, ev.author, INITIAL_REPO_HEALTH + ev.healthDelta)]
  {
  }

  /** Each update raises total_prs by one and adds the event's score and delta to the running values. */
  lemma StepCounters(prior: Summary, ev: Event, now: string)
    ensures var s := MemStep(Some(prior), ev, now);
      s.repo == prior.repo &&
      s.totalPrs == prior.totalPrs + 1 &&
      s.cumulativeScore == prior.cumulativeScore + ev.prScore &&
      s.currentHealth == prior.currentHealth + ev.healthDelta &&
      (s.totalPrs != 0 ==> s.avgScore == s.cumulativeScore as real / s.totalPrs as real) &&
      s.recent[0].overallHealth == s.currentHealth && s.last == Some(s.recent[0]) &&
      (|prior.recent| <= RECENT_LIMIT ==> |s.recent| <= RECENT_LIMIT) &&
      s.recent[1..] <= prior.recent
  {
  }

  /** One update keeps the summary invariants, with the event appended to the arrivals. */
  lemma {:induction false} StepAccounts(repo: string, prior: Option<Summary>, evs: seq<Event>, ev: Event, now: string)
    requires ev.repo == repo
    requires prior.None? ==> evs == []
    requires prior.Some? ==> Accounts(repo, prior.value, evs)
    ensures Accounts(repo, MemStep(prior, ev, now), evs + [ev])
  {
    var evs' := evs + [ev];
    var s := MemStep(prior, ev, now);
    var base := if prior.Some? then prior.value else FreshSummary(repo);
    SumsAppend(evs, ev);
    assert base.totalPrs == |evs| && base.cumulativeScore == SumScores(evs) && base.currentHealth == HealthAfter(evs);
    assert base.recent == SliceTo(MemItems(evs), RECENT_LIMIT);
    assert AllFor(repo, evs') by {
      assert forall i :: 0 <= i < |evs| ==> evs'[i] == evs[i];
    }
    assert evs'[..|evs'| - 1] == evs;
    var item := s.recent[0];
    assert item == WithOverallHealth(ev.prNumber, ev.prScore, ev.timestamp, ev.author, HealthAfter(evs'));
    assert MemItems(evs') == [item] + MemItems(evs);
    SliceToPrepend(item, MemItems(evs), RECENT_LIMIT);
    assert s.recent == SliceTo(MemItems(evs'), RECENT_LIMIT);
  }

  /** The summary of a repository replayed from its arrivals through `MemStep`, or None if it has none. */
  function MemReplay(evs: seq<Event>, now: string): Option<Summary>
    decreases |evs|
  {
    if evs == [] then None else Some(MemStep(MemReplay(evs[..|evs| - 1], now), evs[|evs| - 1], now))
  }

  /** Replaying any arrival sequence yields a summary that satisfies the invariants, and a summary exists iff an event arrived. */
  lemma {:induction false} ReplayAccounts(repo: string, evs: seq<Event>, now: string)
    requires AllFor(repo, evs)
    ensures MemReplay(evs, now).Some? <==> evs != []
    ensures evs != [] ==> Accounts(repo, MemReplay(evs, now).value, evs)
    decreases |evs|
  {
    if evs != [] {
      var init := evs[..|evs| - 1];
      ReplayAccounts(repo, init, now);
      assert evs == init + [evs[|evs| - 1]];
      StepAccounts(repo, MemReplay(init, now), init, evs[|evs| - 1], now);
    }
  }

  /** History documents of `repo`, newest first (the reversed-and-filtered history). */
  function NewestDocs(h: seq<HistoryDoc>, repo: string): (docs: seq<HistoryDoc>)
    ensures |docs| <= |h|
    decreases |h|
  {
    if h == [] then []
    else
      var d := h[|h| - 1];
      (if d.repo == repo then [d] else []) + NewestDocs(h[..|h| - 1], repo)
  }

  /** Every document the newest-first scan yields is a document of the log. */
  lemma {:induction false} NewestDocsFrom(h: seq<HistoryDoc>, repo: string)
    ensures forall d :: d in NewestDocs(h, repo) ==> d in h
    decreases |h|
  {
    if h != [] {
      NewestDocsFrom(h[..|h| - 1], repo);
    }
  }

  /** Number of documents of `repo` in `h`. */
  function CountFor(h: seq<HistoryDoc>, repo: string): nat
    decreases |h|
  {
    if h == [] then 0 else CountFor(h[1..], repo) + (if h[0].repo == repo then 1 else 0)
  }

  lemma {:induction false} CountForAppend(h: seq<HistoryDoc>, d: HistoryDoc, repo: string)
    ensures CountFor(h + [d], repo) == CountFor(h, repo) + (if d.repo == repo then 1 else 0)
    decreases |h|
  {
    if h != [] {
      assert (h + [d])[1..] == h[1..] + [d];
      CountForAppend(h[1..], d, repo);
    }
  }

  /** The query returns as many documents as the log holds for `repo`, all of them from `repo`. */
  lemma {:induction false} NewestDocsCount(h: seq<HistoryDoc>, repo: string)
    ensures |NewestDocs(h, repo)| == CountFor(h, repo)
    ensures forall i :: 0 <= i < |NewestDocs(h, repo)| ==> NewestDocs(h, repo)[i].repo == repo
    decreases |h|
  {
    if h != [] {
      var init := h[..|h| - 1];
      var d := h[|h| - 1];
      NewestDocsCount(init, repo);
      assert h == init + [d];
      CountForAppend(init, d, repo);
    }
  }

  /**
   * The query's order: exactly the documents of `repo`, and the document
   * at history index k sits at the position given by how many documents
   * of `repo` arrived after it.
   */
  lemma NewestDocsOrder(h: seq<HistoryDoc>, repo: string)
    ensures |NewestDocs(h, repo)| == CountFor(h, repo)
    ensures forall i :: 0 <= i < |NewestDocs(h, repo)| ==> NewestDocs(h, repo)[i].repo == repo
    ensures forall k :: 0 <= k < |h| && h[k].repo == repo ==>
              CountFor(h[k + 1..], repo) < |NewestDocs(h, repo)| &&
              NewestDocs(h, repo)[CountFor(h[k + 1..], repo)] == h[k]
  {
    NewestDocsCount(h, repo);
    NewestDocsPosition(h, repo);
  }

  lemma {:induction false} NewestDocsPosition(h: seq<HistoryDoc>, repo: string)
    ensures forall k :: 0 <= k < |h| && h[k].repo == repo ==>
              CountFor(h[k + 1..], repo) < |NewestDocs(h, repo)| &&
              NewestDocs(h, repo)[CountFor(h[k + 1..], repo)] == h[k]
    decreases |h|
  {
    if h != [] {
      var init := h[..|h| - 1];
      NewestDocsPosition(init, repo);
      forall k | 0 <= k < |h| && h[k].repo == repo
        ensures CountFor(h[k + 1..], repo) < |NewestDocs(h, repo)| &&
                NewestDocs(h, repo)[CountFor(h[k + 1..], repo)] == h[k]
      {
        if k < |h| - 1 {
          assert init[k] == h[k];
          NewestDocsStep(h, repo, k);
        } else {
          assert h[k + 1..] == [];
        }
      }
    }
  }

  /** One step of NewestDocsPosition: an older document moves back by one when the newest document is of `repo`. */
  lemma NewestDocsStep(h: seq<HistoryDoc>, repo: string, k: nat)
    requires k < |h| - 1
    requires CountFor(h[..|h| - 1][k + 1..], repo) < |NewestDocs(h[..|h| - 1], repo)|
    ensures CountFor(h[k + 1..], repo) < |NewestDocs(h, repo)|
    ensures NewestDocs(h, repo)[CountFor(h[k + 1..], repo)] ==
      NewestDocs(h[..|h| - 1], repo)[CountFor(h[..|h| - 1][k + 1..], repo)]
  {
    var head := if h[|h| - 1].repo == repo then [h[|h| - 1]] else [];
    var rest := NewestDocs(h[..|h| - 1], repo);
    var c := CountFor(h[..|h| - 1][k + 1..], repo);
    NewestDocsLast(h, repo);
    CountForLast(h, repo, k);
    assert (head + rest)[|head| + c] == rest[c];
  }

  /** Proof helper: one unfolding of NewestDocs at the newest document. */
  lemma NewestDocsLast(h: seq<HistoryDoc>, repo: string)
    requires h != []
    ensures NewestDocs(h, repo) ==
      (if h[|h| - 1].repo == repo then [h[|h| - 1]] else []) + NewestDocs(h[..|h| - 1], repo)
  {
  }

  /** Proof helper: CountFor over a tail, split at the newest document. */
  lemma CountForLast(h: seq<HistoryDoc>, repo: string, k: nat)
    requires k < |h| - 1
    ensures CountFor(h[k + 1..], repo) ==
      (if h[|h| - 1].repo == repo then 1 else 0) + CountFor(h[..|h| - 1][k + 1..], repo)
  {
    assert h[k + 1..] == h[..|h| - 1][k + 1..] + [h[|h| - 1]];
    CountForAppend(h[..|h| - 1][k + 1..], h[|h| - 1], repo);
  }

  /** `health_history` on the in-memory log: rows of `repo`, newest first, cut by Python's `[:limit]`. */
  function HistoryQuery(h: seq<HistoryDoc>, repo: string, limit: int): (rows: seq<HistoryRow>)
  {
    var docs := SliceTo(NewestDocs(h, repo), limit);
    seq(|docs|, i requires 0 <= i < |docs| => RowOf(docs[i]))
  }

  /** The query returns at most `limit` rows for a non-negative limit, all from `repo`, newest first. */
  lemma HistoryQueryBounds(h: seq<HistoryDoc>, repo: string, limit: int)
    ensures limit >= 0 ==> |HistoryQuery(h, repo, limit)| <= limit
    ensures |HistoryQuery(h, repo, limit)| <= CountFor(h, repo)
    ensures forall i :: 0 <= i < |HistoryQuery(h, repo, limit)| ==>
              HistoryQuery(h, repo, limit)[i] == RowOf(NewestDocs(h, repo)[i]) &&
              NewestDocs(h, repo)[i].repo == repo && NewestDocs(h, repo)[i] in h
  {
    NewestDocsOrder(h, repo);
    NewestDocsFrom(h, repo);
  }

  /** A negative limit behaves like Python's `[:limit]`: it drops the last `-limit` matching rows. */
  lemma HistoryQueryNegativeLimit(h: seq<HistoryDoc>, repo: string, limit: int)
    requires limit < 0
    ensures |HistoryQuery(h, repo, limit)| == if CountFor(h, repo) + limit > 0 then CountFor(h, repo) + limit else 0
  {
    NewestDocsOrder(h, repo);
  }

  /** Appending to the capped log: at most HISTORY_CAP documents remain, the oldest is the one dropped. */
  function AppendCapped(h: seq<HistoryDoc>, d: HistoryDoc): (r: seq<HistoryDoc>)
    ensures |h| <= HISTORY_CAP ==> |r| <= HISTORY_CAP
    ensures r != [] && r[|r| - 1] == d
    ensures |h| < HISTORY_CAP ==> r == h + [d]
    ensures |h| >= HISTORY_CAP ==> r == h[1..] + [d]
  {
    var grown := h + [d];
    if |grown| > HISTORY_CAP then grown[1..] else grown
  }

  /** What the in-memory branch of `repo_summary_endpoint` replies. */
  datatype SummaryReply =
    | Stored(summary: Summary)
    | Synthesized(repo: string, totalPrs: int, cumulativeScore: int, avgScore: real, currentHealth: int,
                  last: Option<HistoryDoc>, recent: seq<HistoryDoc>)

  function SumDocScores(docs: seq<HistoryDoc>): int
    decreases |docs|
  {
    if docs == [] then 0 else docs[0].prScore + SumDocScores(docs[1..])
  }

  /**
   * The in-memory summary of `repo`: the stored one, else one synthesised
   * from the history log (whose health is always the initial one).
   */
  function SummaryOf(summaries: map<string, Summary>, h: seq<HistoryDoc>, repo: string): (reply: SummaryReply)
    ensures repo in summaries <==> reply.Stored?
    ensures reply.Stored? ==> reply.summary == summaries[repo]
    ensures !reply.Stored? ==>
              reply.repo == repo && reply.currentHealth == INITIAL_REPO_HEALTH &&
              reply.avgScore == AvgScore(reply.cumulativeScore, reply.totalPrs) &&
              (reply.last.None? <==> reply.recent == []) &&
              (reply.last.Some? ==> reply.last.value == reply.recent[0])
  {
    if repo in summaries then Stored(summaries[repo])
    else
      var rows := NewestDocs(h, repo);
      var recent := SliceTo(rows, RECENT_LIMIT);
      Synthesized(repo, |rows|, SumDocScores(rows), AvgScore(SumDocScores(rows), |rows|), INITIAL_REPO_HEALTH,
                  if recent == [] then None else Some(recent[0]), recent)
  }

  /** Sum of the scores of the documents of `repo` in `h`, in log order. */
  function ScoreFor(h: seq<HistoryDoc>, repo: string): int
    decreases |h|
  {
    if h == [] then 0 else ScoreFor(h[1..], repo) + (if h[0].repo == repo then h[0].prScore else 0)
  }

  /**
   * The synthesised summary of an unseen repository, in terms of the log:
   * one PR per document of `repo`, the sum of their scores, and a window
   * holding the newest RECENT_LIMIT of them, newest first.
   */
  lemma SummaryOfMeaning(summaries: map<string, Summary>, h: seq<HistoryDoc>, repo: string)
    requires repo !in summaries
    ensures var reply := SummaryOf(summaries, h, repo);
      reply.totalPrs == CountFor(h, repo) &&
      reply.cumulativeScore == ScoreFor(h, repo) &&
      |reply.recent| == WindowSize(CountFor(h, repo)) &&
      (forall i :: 0 <= i < |reply.recent| ==> reply.recent[i].repo == repo && reply.recent[i] in h) &&
      (forall k :: 0 <= k < |h| && h[k].repo == repo && CountFor(h[k + 1..], repo) < RECENT_LIMIT ==>
         CountFor(h[k + 1..], repo) < |reply.recent| && reply.recent[CountFor(h[k + 1..], repo)] == h[k])
  {
    var rows := NewestDocs(h, repo);
    NewestDocsOrder(h, repo);
    NewestDocsFrom(h, repo);
    NewestDocsScore(h, repo);
    var recent := SliceTo(rows, RECENT_LIMIT);
    assert forall i :: 0 <= i < |recent| ==> recent[i] == rows[i];
  }

  /** The newest-first documents of `repo` carry the same total score as the log. */
  lemma {:induction false} NewestDocsScore(h: seq<HistoryDoc>, repo: string)
    ensures SumDocScores(NewestDocs(h, repo)) == ScoreFor(h, repo)
    decreases |h|
  {
    if h != [] {
      var init := h[..|h| - 1];
      var d := h[|h| - 1];
      NewestDocsScore(init, repo);
      assert h == init + [d];
      ScoreForAppend(init, d, repo);
      var rest := NewestDocs(init, repo);
      if d.repo == repo {
        assert ([d] + rest)[1..] == rest;
      } else {
        assert [] + rest == rest;
      }
    }
  }

  lemma {:induction false} ScoreForAppend(h: seq<HistoryDoc>, d: HistoryDoc, repo: string)
    ensures ScoreFor(h + [d], repo) == ScoreFor(h, repo) + (if d.repo == repo then d.prScore else 0)
    decreases |h|
  {
    if h != [] {
      assert (h + [d])[1..] == h[1..] + [d];
      ScoreForAppend(h[1..], d, repo);
    }
  }

  /** An unseen repository with nothing in the log reads as the zero-valued summary. */
  lemma UnseenRepoIsZero(summaries: map<string, Summary>, h: seq<HistoryDoc>, repo: string)
    requires repo !in summaries
    requires forall i :: 0 <= i < |h| ==> h[i].repo != repo
    ensures SummaryOf(summaries, h, repo) == Synthesized(repo, 0, 0, 0.0, INITIAL_REPO_HEALTH, None, [])
  {
    NewestDocsOrder(h, repo);
    CountForNone(h, repo);
  }

  lemma {:induction false} CountForNone(h: seq<HistoryDoc>, repo: string)
    requires forall i :: 0 <= i < |h| ==> h[i].repo != repo
    ensures CountFor(h, repo) == 0
    decreases |h|
  {
    if h != [] {
      CountForNone(h[1..], repo);
    }
  }

  /** Every stored summary accounts for exactly the events that arrived for its repository. */
  ghost predicate AllGood(summaries: map<string, Summary>, arrivals: map<string, seq<Event>>) {
    summaries.Keys == arrivals.Keys &&
    forall r {:trigger Accounts(r, summaries[r], arrivals[r])} :: r in summaries ==> Accounts(r, summaries[r], arrivals[r])
  }

  function LookupIn(summaries: map<string, Summary>, repo: string): Option<Summary> {
    if repo in summaries then Some(summaries[repo]) else None
  }

  function ArrivedIn(arrivals: map<string, seq<Event>>, repo: string): seq<Event> {
    if repo in arrivals then arrivals[repo] else []
  }

  /** One update of the whole store keeps every summary accounting for its arrivals. */
  lemma StoreStep(summaries: map<string, Summary>, arrivals: map<string, seq<Event>>, ev: Event, now: string)
    requires AllGood(summaries, arrivals)
    ensures AllGood(summaries[ev.repo := MemStep(LookupIn(summaries, ev.repo), ev, now)],
                    arrivals[ev.repo := ArrivedIn(arrivals, ev.repo) + [ev]])
  {
    var prior := LookupIn(summaries, ev.repo);
    var evs := ArrivedIn(arrivals, ev.repo);
    assert prior.Some? ==> Accounts(ev.repo, prior.value, evs);
    StepAccounts(ev.repo, prior, evs, ev, now);
  }

  /**
   * The field-by-field update of one summary entry: counters first, then
   * the average, the health, the `last` entry and the `recent` window,
   * which loses its oldest entry when it outgrows RECENT_LIMIT.
   */
  method ApplyDoc(prior: Option<Summary>, ev: Event, now: string) returns (s: Summary)
    ensures s == MemStep(prior, ev, now)
  {
    s := if prior.Some? then prior.value else FreshSummary(ev.repo);
    s := s.(totalPrs := s.totalPrs + 1);
    s := s.(cumulativeScore := s.cumulativeScore + ev.prScore);
    s := s.(avgScore := if s.totalPrs != 0 then s.cumulativeScore as real / s.totalPrs as real else 0.0);
    assert s.avgScore == AvgScore(s.cumulativeScore, s.totalPrs);
    s := s.(currentHealth := s.currentHealth + ev.healthDelta);
    var item := WithOverallHealth(ev.prNumber, ev.prScore, ev.timestamp, ev.author, s.currentHealth);
    s := s.(last := Some(item));
    s := s.(recent := [item] + s.recent);
    if |s.recent| > RECENT_LIMIT {
      s := s.(recent := s.recent[..|s.recent| - 1]);
    }
    s := s.(updatedAt := Some(now));
  }

  /**
   * The in-memory store: summaries keyed by repository, changed in place
   * by each update, and the capped history log. The ghost `arrivals`
   * records, per repository, the events folded in so far.
   */
  class Store {
    var summaries: map<string, Summary>
    var history: seq<HistoryDoc>
    ghost var arrivals: map<string, seq<Event>>

    ghost predicate Valid()
      reads this
    {
      |history| <= HISTORY_CAP && AllGood(summaries, arrivals)
    }

    function Lookup(repo: string): Option<Summary>
      reads this
    {
      LookupIn(summaries, repo)
    }

    ghost function Arrived(repo: string): seq<Event>
      reads this
    {
      ArrivedIn(arrivals, repo)
    }

    constructor ()
      ensures Valid() && summaries == map[] && history == [] && arrivals == map[]
    {
      summaries, history, arrivals := map[], [], map[];
    }

    /**
     * Folds one event into its repository's summary, creating the fresh
     * default first for an unseen repository; other repositories and the
     * history log are untouched.
     */
    method UpdateSummaryWithDoc(ev: Event, now: string)
      requires Valid()
      modifies this
      ensures Valid()
      ensures summaries == old(summaries)[ev.repo := MemStep(LookupIn(old(summaries), ev.repo), ev, now)]
      ensures arrivals == old(arrivals)[ev.repo := ArrivedIn(old(arrivals), ev.repo) + [ev]]
      ensures history == old(history)
    {
      var s := ApplyDoc(LookupIn(summaries, ev.repo), ev, now);
      ghost var evs := ArrivedIn(arrivals, ev.repo) + [ev];
      StoreStep(summaries, arrivals, ev, now);
      var updated := summaries[ev.repo := s];
      ghost var arrived := arrivals[ev.repo := evs];
      assert AllGood(updated, arrived);
      summaries, arrivals := updated, arrived;
    }

    /** Appends one document to the history log, dropping the oldest beyond the cap. */
    method AppendHistory(d: HistoryDoc)
      requires Valid()
      modifies this
      ensures Valid()
      ensures history == AppendCapped(old(history), d)
      ensures summaries == old(summaries) && arrivals == old(arrivals)
    {
      history := history + [d];
      if |history| > HISTORY_CAP {
        history := history[1..];
      }
    }

    /** `health_history` served from memory. */
    function HealthHistory(repo: string, limit: int): (rows: seq<HistoryRow>)
      reads this
      ensures rows == HistoryQuery(history, repo, limit)
      ensures limit >= 0 ==> |rows| <= limit
      ensures |rows| <= CountFor(history, repo)
      ensures forall i :: 0 <= i < |rows| ==>
                rows[i] == RowOf(NewestDocs(history, repo)[i]) &&
                NewestDocs(history, repo)[i].repo == repo && NewestDocs(history, repo)[i] in history
    {
      HistoryQueryBounds(history, repo, limit);
      HistoryQuery(history, repo, limit)
    }
  }
}
