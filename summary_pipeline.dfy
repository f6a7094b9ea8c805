/**
 * The durable summary update both Python services send to the document
 * store: one upserting `$set` aggregation stage applied to the summary of
 * the event's repository, followed by a separate write of `avg_score`.
 * The store is a map from repository to document; its failures are a
 * parameter.
 */
module SummaryPipeline {
  import opened Wrappers
  import opened Text
  import opened HealthModel
  import MemoryStore

  /** A stored summary document; any field may be missing (or null). */
  datatype StoredSummary = StoredSummary(
    repo: Option<string>,
    totalPrs: Option<int>,
    cumulativeScore: Option<int>,
    currentHealth: Option<int>,
    avgScore: Option<real>,
    lastScore: Option<int>,
    lastPrNumber: Option<int>,
    lastAuthor: Option<string>,
    lastTimestamp: Option<string>,
    updatedAt: Option<string>,
    recent: Option<seq<RecentItem>>)

  /** The document an upsert starts from when nothing matches the `{"repo": repo}` filter. */
  function UpsertSeed(repo: string): StoredSummary {
    StoredSummary(Some(repo), None, None, None, None, None, None, None, None, None, None)
  }

  /** `$ifNull`: the field when present, otherwise the fallback. */
  function IfNull<T>(field: Option<T>, fallback: T): T {
    if field.Some? then field.value else fallback
  }

  /** The `recent` entry the pipeline prepends for an event. */
  function PipelineItem(ev: Event): RecentItem {
    WithHealthDelta(ev.prNumber, ev.prScore, ev.timestamp, ev.author, ev.healthDelta)
  }

  /** The `$set` stage applied to the matched document, or to the upsert seed. */
  function PipelineSet(prior: Option<StoredSummary>, ev: Event, now: string): StoredSummary {
    var d := if prior.Some? then prior.value else UpsertSeed(ev.repo);
    d.(repo := Some(IfNull(d.repo, ev.repo)),
       totalPrs := Some(IfNull(d.totalPrs, 0) + 1),
       cumulativeScore := Some(IfNull(d.cumulativeScore, 0) + ev.prScore),
       currentHealth := Some(IfNull(d.currentHealth, INITIAL_REPO_HEALTH) + ev.healthDelta),
       lastScore := Some(ev.prScore),
       lastPrNumber := Some(ev.prNumber),
       lastAuthor := Some(ev.author),
       lastTimestamp := Some(ev.timestamp),
       updatedAt := Some(now),
       recent := Some(SliceTo([PipelineItem(ev)] + IfNull(d.recent, []), RECENT_LIMIT)))
  }

  /** The fast-follow write: `avg_score` from the counters the atomic step returned. */
  function WithAvg(d: StoredSummary): StoredSummary {
    d.(avgScore := Some(AvgScore(IfNull(d.cumulativeScore, 0), IfNull(d.totalPrs, 0))))
  }

  function Find(coll: map<string, StoredSummary>, repo: string): Option<StoredSummary> {
    if repo in coll then Some(coll[repo]) else None
  }

  /**
   * Where a store operation may fail: the atomic update itself, the later
   * `avg_score` write, or the final re-read of the document.
   */
  datatype StoreFault = NoFault | UpdateFails | AvgWriteFails | ReReadFails

  /** The summary collection after the call, and the document the call returns (None on failure). */
  datatype UpdateOutcome = UpdateOutcome(collection: map<string, StoredSummary>, returned: Option<StoredSummary>)

  /**
   * `_update_repo_summary` / `_update_repo_summary_mongo`: None when the
   * collection is not configured or an operation fails; otherwise the
   * re-read document, whose `avg_score` matches its counters.
   */
  function UpdateRepoSummary(configured: bool, coll: map<string, StoredSummary>, fault: StoreFault, ev: Event, now: string): (r: UpdateOutcome)
    ensures r.returned.Some? <==> configured && fault == NoFault
    ensures !configured || fault == UpdateFails ==> r.collection == coll
    ensures forall k :: k != ev.repo ==> (k in r.collection <==> k in coll) && (k in coll ==> r.collection[k] == coll[k])
    ensures r.returned.Some? ==> ev.repo in r.collection && r.returned.value == r.collection[ev.repo]
    ensures r.returned.Some? ==>
              var d := r.returned.value;
              d.totalPrs.Some? && d.cumulativeScore.Some? &&
              d.avgScore == Some(if d.totalPrs.value != 0 then d.cumulativeScore.value as real / d.totalPrs.value as real else 0.0)
    ensures configured && fault == AvgWriteFails ==>
              ev.repo in r.collection && r.collection[ev.repo].avgScore == (if ev.repo in coll then coll[ev.repo].avgScore else None)
  {
    if !configured then UpdateOutcome(coll, None)
    else
      var stepped := PipelineSet(Find(coll, ev.repo), ev, now);
      match fault
      case UpdateFails => UpdateOutcome(coll, None)
      case AvgWriteFails => UpdateOutcome(coll[ev.repo := stepped], None)
      case ReReadFails => UpdateOutcome(coll[ev.repo := WithAvg(stepped)], None)
      case NoFault =>
        var d := WithAvg(stepped);
        UpdateOutcome(coll[ev.repo := d], Some(d))
  }

  /** A failed re-read loses only the returned document: both writes have landed. */
  lemma ReReadLosesOnlyReply(coll: map<string, StoredSummary>, ev: Event, now: string)
    ensures var (lost, ok) := (UpdateRepoSummary(true, coll, ReReadFails, ev, now), UpdateRepoSummary(true, coll, NoFault, ev, now));
      lost.returned.None? && ok.returned.Some? && lost.collection == ok.collection
  {
  }

  /** The first event for a repository: absent fields default to 0, 0, INITIAL_REPO_HEALTH and [] before adding. */
  lemma FirstEventDefaults(ev: Event, now: string)
    ensures var d := PipelineSet(None, ev, now);
      d.repo == Some(ev.repo) && d.totalPrs == Some(1) && d.cumulativeScore == Some(ev.prScore) &&
      d.currentHealth == Some(INITIAL_REPO_HEALTH + ev.healthDelta) && d.recent == Some([PipelineItem(ev)])
  {
    assert [PipelineItem(ev)] + [] == [PipelineItem(ev)];
  }

  /** Each step: total_prs grows by exactly one, the score and delta are added, and the new item heads a window of at most RECENT_LIMIT. */
  lemma StepEffect(prior: StoredSummary, ev: Event, now: string)
    requires prior.totalPrs.Some? && prior.cumulativeScore.Some? && prior.currentHealth.Some?
    ensures var d := PipelineSet(Some(prior), ev, now);
      d.totalPrs == Some(prior.totalPrs.value + 1) &&
      d.cumulativeScore == Some(prior.cumulativeScore.value + ev.prScore) &&
      d.currentHealth == Some(prior.currentHealth.value + ev.healthDelta) &&
      d.recent.Some? && 1 <= |d.recent.value| <= RECENT_LIMIT && d.recent.value[0] == PipelineItem(ev) &&
      d.recent.value[1..] <= IfNull(prior.recent, [])
  {
  }

  /** The window entries the pipeline would hold for `evs`, newest first, uncut. */
  function PipeItems(evs: seq<Event>): (items: seq<RecentItem>)
    ensures |items| == |evs|
    decreases |evs|
  {
    if evs == [] then [] else [PipelineItem(evs[|evs| - 1])] + PipeItems(evs[..|evs| - 1])
  }

  /** The summary invariants for a stored document after the non-empty arrival sequence `evs`. */
  ghost predicate PipeAccounts(repo: string, d: StoredSummary, evs: seq<Event>) {
    evs != [] && AllFor(repo, evs) &&
    d.repo == Some(repo) &&
    d.totalPrs == Some(|evs|) &&
    d.cumulativeScore == Some(SumScores(evs)) &&
    d.currentHealth == Some(HealthAfter(evs)) &&
    d.recent.Some? && |d.recent.value| == WindowSize(|evs|) &&
    d.recent.value == SliceTo(PipeItems(evs), RECENT_LIMIT) &&
    d.lastPrNumber == Some(evs[|evs| - 1].prNumber) && d.lastScore == Some(evs[|evs| - 1].prScore)
  }

  /** One pipeline step keeps the invariants, with the event appended to the arrivals. */
  lemma {:induction false} PipeStepAccounts(repo: string, prior: Option<StoredSummary>, evs: seq<Event>, ev: Event, now: string)
    requires ev.repo == repo
    requires prior.None? ==> evs == []
    requires prior.Some? ==> PipeAccounts(repo, prior.value, evs)
    ensures PipeAccounts(repo, PipelineSet(prior, ev, now), evs + [ev])
    ensures PipeAccounts(repo, WithAvg(PipelineSet(prior, ev, now)), evs + [ev])
  {
    var evs' := evs + [ev];
    var d := PipelineSet(prior, ev, now);
    var base := if prior.Some? then prior.value else UpsertSeed(repo);
    SumsAppend(evs, ev);
    assert IfNull(base.totalPrs, 0) == |evs|;
    assert IfNull(base.cumulativeScore, 0) == SumScores(evs);
    assert IfNull(base.currentHealth, INITIAL_REPO_HEALTH) == HealthAfter(evs);
    assert IfNull(base.recent, []) == SliceTo(PipeItems(evs), RECENT_LIMIT);
    assert AllFor(repo, evs') by {
      assert forall i :: 0 <= i < |evs| ==> evs'[i] == evs[i];
    }
    assert evs'[..|evs'| - 1] == evs;
    assert PipeItems(evs') == [PipelineItem(ev)] + PipeItems(evs);
    SliceToPrepend(PipelineItem(ev), PipeItems(evs), RECENT_LIMIT);
  }

  /** The document left by replaying `evs` through the full update (atomic step, then `avg_score`). */
  function PipeReplay(evs: seq<Event>, now: string): Option<StoredSummary>
    decreases |evs|
  {
    if evs == [] then None else Some(WithAvg(PipelineSet(PipeReplay(evs[..|evs| - 1], now), evs[|evs| - 1], now)))
  }

  /**
   * Replaying any arrival sequence from an absent document: total_prs is
   * the number of events, the sums are exact, the window has
   * min(total_prs, RECENT_LIMIT) entries, and avg_score is the exact ratio.
   */
  lemma {:induction false} PipeReplayAccounts(repo: string, evs: seq<Event>, now: string)
    requires AllFor(repo, evs)
    ensures PipeReplay(evs, now).Some? <==> evs != []
    ensures evs != [] ==>
              PipeAccounts(repo, PipeReplay(evs, now).value, evs) &&
              PipeReplay(evs, now).value.avgScore == Some(SumScores(evs) as real / |evs| as real)
    decreases |evs|
  {
    if evs != [] {
      var init := evs[..|evs| - 1];
      ReplayPrefix(repo, evs);
      PipeReplayAccounts(repo, init, now);
      assert evs == init + [evs[|evs| - 1]];
      PipeStepAccounts(repo, PipeReplay(init, now), init, evs[|evs| - 1], now);
    }
  }

  lemma ReplayPrefix(repo: string, evs: seq<Event>)
    requires evs != [] && AllFor(repo, evs)
    ensures AllFor(repo, evs[..|evs| - 1])
  {
  }

  /** The in-memory window entry at position i is the event that arrived i-th from last, with the health after it. */
  lemma {:induction false} MemItemsAt(evs: seq<Event>, i: nat)
    requires i < |evs|
    ensures var e := evs[|evs| - 1 - i];
      MemoryStore.MemItems(evs)[i] == WithOverallHealth(e.prNumber, e.prScore, e.timestamp, e.author, HealthAfter(evs[..|evs| - i]))
    decreases |evs|
  {
    if i > 0 {
      var init := evs[..|evs| - 1];
      MemItemsAt(init, i - 1);
      assert init[..|init| - (i - 1)] == evs[..|evs| - i];
    } else {
      assert evs[..|evs|] == evs;
    }
  }

  /** The pipeline window entry at position i is built from the event that arrived i-th from last. */
  lemma {:induction false} PipeItemsAt(evs: seq<Event>, i: nat)
    requires i < |evs|
    ensures PipeItems(evs)[i] == PipelineItem(evs[|evs| - 1 - i])
    decreases |evs|
  {
    if i > 0 {
      PipeItemsAt(evs[..|evs| - 1], i - 1);
    }
  }

  /**
   * Both summary paths agree on the same arrivals: equal counters, sums,
   * health, average and window length, and window entries built from the
   * same events. The in-memory entry holds the health after its event, the
   * pipeline entry its delta, and consecutive in-memory healths differ by
   * exactly that delta.
   */
  lemma PathsAgree(repo: string, evs: seq<Event>, now: string)
    requires evs != [] && AllFor(repo, evs)
    ensures MemoryStore.MemReplay(evs, now).Some? && PipeReplay(evs, now).Some?
    ensures var m := MemoryStore.MemReplay(evs, now).value;
      var p := PipeReplay(evs, now).value;
      p.totalPrs == Some(m.totalPrs) && p.cumulativeScore == Some(m.cumulativeScore) &&
      p.currentHealth == Some(m.currentHealth) && p.avgScore == Some(m.avgScore) &&
      p.recent.Some? && |p.recent.value| == |m.recent| &&
      (forall i :: 0 <= i < |m.recent| ==>
         m.recent[i].WithOverallHealth? && p.recent.value[i].WithHealthDelta? &&
         m.recent[i].prNumber == p.recent.value[i].prNumber && m.recent[i].score == p.recent.value[i].score &&
         m.recent[i].timestamp == p.recent.value[i].timestamp && m.recent[i].author == p.recent.value[i].author) &&
      (forall i :: 0 <= i < |m.recent| - 1 ==>
         m.recent[i].overallHealth - m.recent[i + 1].overallHealth == p.recent.value[i].overallHealthDelta)
  {
    TotalsAgree(repo, evs, now);
    EntriesAgree(repo, evs, now);
    HealthStepsAgree(repo, evs, now);
  }

  lemma TotalsAgree(repo: string, evs: seq<Event>, now: string)
    requires evs != [] && AllFor(repo, evs)
    ensures MemoryStore.MemReplay(evs, now).Some? && PipeReplay(evs, now).Some?
    ensures var m := MemoryStore.MemReplay(evs, now).value;
      var p := PipeReplay(evs, now).value;
      p.totalPrs == Some(m.totalPrs) && p.cumulativeScore == Some(m.cumulativeScore) &&
      p.currentHealth == Some(m.currentHealth) && p.avgScore == Some(m.avgScore) &&
      p.recent.Some? && |p.recent.value| == |m.recent|
  {
    MemoryStore.ReplayAccounts(repo, evs, now);
    PipeReplayAccounts(repo, evs, now);
  }

  lemma EntriesAgree(repo: string, evs: seq<Event>, now: string)
    requires evs != [] && AllFor(repo, evs)
    ensures MemoryStore.MemReplay(evs, now).Some? && PipeReplay(evs, now).Some?
    ensures var m := MemoryStore.MemReplay(evs, now).value;
      var p := PipeReplay(evs, now).value;
      p.recent.Some? && |p.recent.value| == |m.recent| &&
      (forall i :: 0 <= i < |m.recent| ==>
         m.recent[i].WithOverallHealth? && p.recent.value[i].WithHealthDelta? &&
         m.recent[i].prNumber == p.recent.value[i].prNumber && m.recent[i].score == p.recent.value[i].score &&
         m.recent[i].timestamp == p.recent.value[i].timestamp && m.recent[i].author == p.recent.value[i].author)
  {
    MemoryStore.ReplayAccounts(repo, evs, now);
    PipeReplayAccounts(repo, evs, now);
    var m := MemoryStore.MemReplay(evs, now).value;
    var p := PipeReplay(evs, now).value;
    forall i | 0 <= i < |m.recent|
      ensures m.recent[i].WithOverallHealth? && p.recent.value[i].WithHealthDelta?
      ensures m.recent[i].prNumber == p.recent.value[i].prNumber && m.recent[i].score == p.recent.value[i].score &&
              m.recent[i].timestamp == p.recent.value[i].timestamp && m.recent[i].author == p.recent.value[i].author
    {
      MemItemsAt(evs, i);
      PipeItemsAt(evs, i);
    }
  }

  lemma HealthStepsAgree(repo: string, evs: seq<Event>, now: string)
    requires evs != [] && AllFor(repo, evs)
    ensures MemoryStore.MemReplay(evs, now).Some? && PipeReplay(evs, now).Some?
    ensures var m := MemoryStore.MemReplay(evs, now).value;
      var p := PipeReplay(evs, now).value;
      p.recent.Some? && |p.recent.value| == |m.recent| &&
      (forall i :: 0 <= i < |m.recent| ==> m.recent[i].WithOverallHealth?) &&
      (forall i :: 0 <= i < |m.recent| ==> p.recent.value[i].WithHealthDelta?) &&
      (forall i :: 0 <= i < |m.recent| - 1 ==>
         m.recent[i].overallHealth - m.recent[i + 1].overallHealth == p.recent.value[i].overallHealthDelta)
  {
    EntriesAgree(repo, evs, now);
    MemoryStore.ReplayAccounts(repo, evs, now);
    PipeReplayAccounts(repo, evs, now);
    var m := MemoryStore.MemReplay(evs, now).value;
    var p := PipeReplay(evs, now).value;
    forall i | 0 <= i < |m.recent| - 1
      ensures m.recent[i].overallHealth - m.recent[i + 1].overallHealth == p.recent.value[i].overallHealthDelta
    {
      HealthStepAt(evs, i);
    }
  }

  /** Two neighbouring in-memory entries differ in health by the delta of the newer one's pipeline entry. */
  lemma HealthStepAt(evs: seq<Event>, i: nat)
    requires i + 1 < |evs|
    ensures var (newer, older, piped) := (MemoryStore.MemItems(evs)[i], MemoryStore.MemItems(evs)[i + 1], PipeItems(evs)[i]);
      newer.WithOverallHealth? && older.WithOverallHealth? && piped.WithHealthDelta? &&
      newer.overallHealth - older.overallHealth == piped.overallHealthDelta
  {
    var n := |evs|;
    MemItemsAt(evs, i);
    MemItemsAt(evs, i + 1);
    PipeItemsAt(evs, i);
    var pre := evs[..n - i];
    assert pre[..|pre| - 1] == evs[..n - (i + 1)];
  }

  /** `repo_summary_endpoint` on the store: the zero-valued summary when none exists, else the document with `avg_score` filled in. */
  function RepoSummaryFromStore(coll: map<string, StoredSummary>, repo: string): (r: StoredSummary)
    ensures r.avgScore.Some?
    ensures repo in coll && coll[repo].avgScore.Some? ==> r == coll[repo]
    ensures repo in coll ==> r == coll[repo].(avgScore := r.avgScore)
  {
    if repo !in coll then
      StoredSummary(Some(repo), Some(0), Some(0), Some(INITIAL_REPO_HEALTH), Some(0.0), None, None, None, None, None, Some([]))
    else
      var d := coll[repo];
      if d.avgScore.Some? then d else WithAvg(d)
  }

  /** An unseen repository reads as total_prs 0, cumulative 0, avg 0, health INITIAL_REPO_HEALTH and an empty window. */
  lemma UnseenRepoDefaults(coll: map<string, StoredSummary>, repo: string)
    requires repo !in coll
    ensures var r := RepoSummaryFromStore(coll, repo);
      r.totalPrs == Some(0) && r.cumulativeScore == Some(0) && r.avgScore == Some(0.0) &&
      r.currentHealth == Some(INITIAL_REPO_HEALTH) && r.recent == Some([])
  {
  }

  /** The worked example: scores 10 then 0 with deltas +2 then -5 give 2 PRs, cumulative 10, average 5, health 97, newest first. */
  lemma TwoEventExample(e1: Event, e2: Event, now: string)
    requires e1.repo == e2.repo
    requires e1.prScore == 10 && e1.healthDelta == 2 && e2.prScore == 0 && e2.healthDelta == -5
    ensures var d := PipeReplay([e1, e2], now).value;
      d.totalPrs == Some(2) && d.cumulativeScore == Some(10) && d.avgScore == Some(5.0) &&
      d.currentHealth == Some(97) && d.recent == Some([PipelineItem(e2), PipelineItem(e1)])
  {
    var d1 := WithAvg(PipelineSet(None, e1, now));
    assert [e1, e2][..1] == [e1];
    assert [e1][..0] == [];
    assert PipeReplay([e1], now) == Some(d1);
    FirstEventDefaults(e1, now);
    assert d1.recent == Some([PipelineItem(e1)]);
    var d2 := WithAvg(PipelineSet(Some(d1), e2, now));
    assert PipeReplay([e1, e2], now) == Some(d2);
    assert [PipelineItem(e2)] + [PipelineItem(e1)] == [PipelineItem(e2), PipelineItem(e1)];
    assert d2.recent == Some(SliceTo([PipelineItem(e2), PipelineItem(e1)], RECENT_LIMIT));
    assert d2.totalPrs == Some(2) && d2.cumulativeScore == Some(10);
    assert 10 as real / 2 as real == 5.0;
  }
}
