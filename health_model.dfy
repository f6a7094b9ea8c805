/**
 * What both summary updaters share: the event they fold in, the entries
 * of the `recent` window, the constants and the running sums that the
 * summary invariants are stated with.
 */
module HealthModel {
  import opened Text

  /** Size of a summary's `recent` window. */
  const RECENT_LIMIT: nat := 20
  /** Health of a repository that has seen no pull request. */
  const INITIAL_REPO_HEALTH: int := 100

  /** One assessed pull request, as the summary updaters read it from the stored document. */
  datatype Event = Event(repo: string, prScore: int, healthDelta: int, prNumber: int, author: string, timestamp: string)

  /**
   * An entry of the `recent` window. The in-memory updater records the
   * repository health after the event (`overall_health`); the pipeline
   * update records the event's own delta (`overall_health_delta`).
   */
  datatype RecentItem =
    | WithOverallHealth(prNumber: int, score: int, timestamp: string, author: string, overallHealth: int)
    | WithHealthDelta(prNumber: int, score: int, timestamp: string, author: string, overallHealthDelta: int)

  /** Sum of the pr_score of the events, in arrival order. */
  function SumScores(evs: seq<Event>): int
    decreases |evs|
  {
    if evs == [] then 0 else SumScores(evs[..|evs| - 1]) + evs[|evs| - 1].prScore
  }

  /** Sum of the health_delta of the events, in arrival order. */
  function SumDeltas(evs: seq<Event>): int
    decreases |evs|
  {
    if evs == [] then 0 else SumDeltas(evs[..|evs| - 1]) + evs[|evs| - 1].healthDelta
  }

  /** Repository health once all of `evs` are folded in. */
  function HealthAfter(evs: seq<Event>): int {
    INITIAL_REPO_HEALTH + SumDeltas(evs)
  }

  /** `min(n, RECENT_LIMIT)`. */
  function WindowSize(n: nat): nat {
    if n < RECENT_LIMIT then n else RECENT_LIMIT
  }

  /** `avg_score`: the exact ratio cumulative / total, or 0 when total is 0. */
  function AvgScore(cumulative: int, total: int): real {
    if total != 0 then cumulative as real / total as real else 0.0
  }

  /** All events are about `repo`. */
  predicate AllFor(repo: string, evs: seq<Event>) {
    forall i :: 0 <= i < |evs| ==> evs[i].repo == repo
  }

  /** Prepending one element to a window cut at `n` and cutting again is the same as cutting once. */
  lemma SliceToPrepend<T>(x: T, s: seq<T>, n: nat)
    requires n >= 1
    ensures SliceTo([x] + SliceTo(s, n), n) == SliceTo([x] + s, n)
  {
    if n < |s| {
      assert ([x] + s)[..n] == [x] + s[..n - 1];
      assert ([x] + s[..n])[..n] == [x] + s[..n - 1];
    }
  }

  /** Appending an event adds exactly its score and its delta to the two running sums. */
  lemma SumsAppend(evs: seq<Event>, e: Event)
    ensures SumScores(evs + [e]) == SumScores(evs) + e.prScore
    ensures SumDeltas(evs + [e]) == SumDeltas(evs) + e.healthDelta
  {
    assert (evs + [e])[..|evs|] == evs;
  }
}
