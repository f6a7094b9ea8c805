/**
 * The heuristic pull-request analyser of the API service: it reads the
 * changed paths and the added conditionals out of a unified diff, and maps
 * the counts and the keywords of the diff to a structural pass, a semantic
 * pass, a synthesis sentence, risks, suggestions and two scores.
 */
module DiffAnalysis {
  import opened Wrappers
  import opened Text
  import opened Sorting

  const DIFF_HEADER: string := "diff --git "
  const NEW_FILE_HEADER: string := "+++ b/"
  /** The markers git puts before the old and the new path of a header. */
  const OLD_MARK: string := "a/"
  const NEW_MARK: string := "b/"

  // ---------------------------------------------------------------------
  // Changed paths
  // ---------------------------------------------------------------------

  predicate NoSpace(s: string) {
    forall k :: 0 <= k < |s| ==> s[k] !in PyWhitespace
  }

  /** `s[2:] if s.startswith(prefix) else s` for a two-character prefix. */
  function DropPrefix(s: string, prefix: string): string
    requires |prefix| == 2
  {
    if StartsWith(s, prefix) then s[2..] else s
  }

  /**
   * The path one line of a diff names: a "diff --git" line with at least
   * four fields names its new path (its old one when the new one is empty),
   * a "+++ b/" line names what follows the marker, other lines name nothing.
   */
  function LinePath(line: string): (p: Option<string>)
    ensures p.Some? ==> StartsWith(line, DIFF_HEADER) || StartsWith(line, NEW_FILE_HEADER)
    ensures StartsWith(line, NEW_FILE_HEADER) ==> p == Some(line[|NEW_FILE_HEADER|..])
    ensures StartsWith(line, DIFF_HEADER) ==> (p.Some? <==> |Fields(line)| >= 4)
  {
    if StartsWith(line, DIFF_HEADER) then
      var parts := Fields(line);
      if |parts| >= 4 then
        var a := DropPrefix(parts[2], OLD_MARK);
        var b := DropPrefix(parts[3], NEW_MARK);
        Some(if b != "" then b else a)
      else None
    else if StartsWith(line, NEW_FILE_HEADER) then Some(line[|NEW_FILE_HEADER|..])
    else None
  }

  lemma {:induction false} TakeUntilWord(w: string, rest: string)
    requires NoSpace(w)
    requires rest == [] || rest[0] in PyWhitespace
    ensures TakeUntil(w + rest, PyWhitespace) == w
    decreases |w|
  {
    if w != [] {
      assert (w + rest)[1..] == w[1..] + rest;
      TakeUntilWord(w[1..], rest);
    }
  }

  /** A word followed by whitespace, or by nothing, is the first field. */
  lemma FieldsWord(w: string, rest: string)
    requires w != [] && NoSpace(w)
    requires rest == [] || rest[0] in PyWhitespace
    ensures Fields(w + rest) == [w] + Fields(rest)
  {
    TakeUntilWord(w, rest);
    assert (w + rest)[|w|..] == rest;
  }

  /** A leading space does not change `split()`. */
  lemma FieldsSkipSpace(s: string)
    ensures Fields(" " + s) == Fields(s)
  {
    assert (" " + s)[1..] == s;
  }

  /** A single word is a single field. */
  lemma FieldsLast(y: string)
    requires y != [] && NoSpace(y)
    ensures Fields(y) == [y]
  {
    FieldsWord(y, []);
    assert y + [] == y;
  }

  /** Two words separated by one space are two fields. */
  lemma FieldsPair(x: string, y: string)
    requires x != [] && NoSpace(x) && y != [] && NoSpace(y)
    ensures Fields(x + (" " + y)) == [x, y]
  {
    FieldsAfterWord(x, y);
    FieldsLast(y);
  }

  /** Proof helper: the header keywords are whitespace-free words. */
  lemma HeaderWords()
    ensures NoSpace("--git") && NoSpace("diff")
  {
  }

  lemma FieldsAfterWord(w: string, x: string)
    requires w != [] && NoSpace(w)
    ensures Fields(w + (" " + x)) == [w] + Fields(x)
  {
    FieldsSkipSpace(x);
    FieldsWord(w, " " + x);
  }

  lemma HeaderSplit(x: string)
    ensures DIFF_HEADER + x == "diff" + (" " + ("--git" + (" " + x)))
  {
    assert DIFF_HEADER == "diff" + " " + "--git" + " ";
  }

  lemma FieldsAfterGit(x: string)
    ensures Fields("--git" + (" " + x)) == ["--git"] + Fields(x)
  {
    HeaderWords();
    FieldsSkipSpace(x);
    FieldsWord("--git", " " + x);
  }

  lemma FieldsAfterDiff(x: string)
    ensures Fields("diff" + (" " + x)) == ["diff"] + Fields(x)
  {
    HeaderWords();
    FieldsSkipSpace(x);
    FieldsWord("diff", " " + x);
  }

  /** The "diff --git " marker contributes its two words as the first two fields. */
  lemma FieldsAfterHeader(x: string)
    ensures Fields(DIFF_HEADER + x) == ["diff", "--git"] + Fields(x)
  {
    FieldsAfterGit(x);
    FieldsAfterDiff("--git" + (" " + x));
    HeaderSplit(x);
  }

  lemma MarkedNoSpace(a: string, b: string)
    requires NoSpace(a) && NoSpace(b)
    ensures NoSpace(OLD_MARK + a) && NoSpace(NEW_MARK + b)
  {
  }

  /** Proof helper: the git header text regrouped to the right, as the field scan reads it. */
  lemma HeaderConcat(a: string, b: string)
    ensures DIFF_HEADER + OLD_MARK + a + " " + NEW_MARK + b == DIFF_HEADER + (OLD_MARK + a + (" " + (NEW_MARK + b)))
  {
  }

  /** The fields of a git header are the two marker words and the two marked paths. */
  lemma HeaderFields(a: string, b: string)
    requires NoSpace(a) && NoSpace(b)
    ensures Fields(DIFF_HEADER + OLD_MARK + a + " " + NEW_MARK + b) == ["diff", "--git", OLD_MARK + a, NEW_MARK + b]
  {
    MarkedNoSpace(a, b);
    FieldsPair(OLD_MARK + a, NEW_MARK + b);
    FieldsAfterHeader(OLD_MARK + a + (" " + (NEW_MARK + b)));
    HeaderConcat(a, b);
  }

  /**
   * The header git writes, `diff --git a/<old> b/<new>`, names the new
   * path, or the old one when the new one is empty.
   */
  lemma GitHeaderPath(a: string, b: string)
    requires NoSpace(a) && NoSpace(b)
    ensures LinePath(DIFF_HEADER + OLD_MARK + a + " " + NEW_MARK + b) == Some(if b != "" then b else a)
  {
    HeaderFields(a, b);
    HeaderConcat(a, b);
    LinePathOfFields(DIFF_HEADER + OLD_MARK + a + " " + NEW_MARK + b, a, b);
  }

  lemma LinePathOfFields(line: string, a: string, b: string)
    requires StartsWith(line, DIFF_HEADER)
    requires Fields(line) == ["diff", "--git", OLD_MARK + a, NEW_MARK + b]
    ensures LinePath(line) == Some(if b != "" then b else a)
  {
    assert StartsWith(OLD_MARK + a, OLD_MARK) && (OLD_MARK + a)[2..] == a;
    assert StartsWith(NEW_MARK + b, NEW_MARK) && (NEW_MARK + b)[2..] == b;
  }

  /** The paths the lines name, one per naming line, in line order (the first loop's `paths`). */
  function NamedPaths(lines: seq<string>): seq<string>
    decreases |lines|
  {
    if lines == [] then []
    else
      var init := NamedPaths(lines[..|lines| - 1]);
      match LinePath(lines[|lines| - 1])
      case Some(p) => init + [p]
      case None => init
  }

  /** Every named path comes from a line that names it. */
  lemma {:induction false} NamedPathsFrom(lines: seq<string>)
    ensures forall p :: p in NamedPaths(lines) ==> exists l :: l in lines && LinePath(l) == Some(p)
    decreases |lines|
  {
    if lines != [] {
      var init := lines[..|lines| - 1];
      NamedPathsFrom(init);
      assert forall l :: l in init ==> l in lines;
      assert lines[|lines| - 1] in lines;
    }
  }

  /** The distinct non-empty paths, each at its first occurrence (the second loop's `unique_paths`). */
  function FirstOccurrences(paths: seq<string>): (r: seq<string>)
    ensures forall p :: p in r <==> p in paths && p != ""
    decreases |paths|
  {
    if paths == [] then []
    else
      var init := paths[..|paths| - 1];
      var p := paths[|paths| - 1];
      assert paths == init + [p];
      var u := FirstOccurrences(init);
      if p != "" && p !in u then u + [p] else u
  }

  predicate Distinct(s: seq<string>) {
    forall i, j :: 0 <= i < j < |s| ==> s[i] != s[j]
  }

  /** Wherever a later element of `r` occurs in `paths`, every earlier element of `r` has already occurred. */
  predicate InOccurrenceOrder(r: seq<string>, paths: seq<string>) {
    forall i, j, k :: 0 <= i < j < |r| && 0 <= k < |paths| && paths[k] == r[j] ==> r[i] in paths[..k]
  }

  /**
   * No path is kept twice, and the kept paths are in the order of their
   * first occurrences: wherever a later kept path occurs, an earlier kept
   * one has already occurred.
   */
  lemma {:induction false} FirstOccurrencesOrder(paths: seq<string>)
    ensures Distinct(FirstOccurrences(paths))
    ensures InOccurrenceOrder(FirstOccurrences(paths), paths)
    decreases |paths|
  {
    if paths != [] {
      var init := paths[..|paths| - 1];
      var p := paths[|paths| - 1];
      var u := FirstOccurrences(init);
      var r := FirstOccurrences(paths);
      FirstOccurrencesOrder(init);
      assert Distinct(u) && InOccurrenceOrder(u, init);
      assert paths == init + [p];
      assert r == if p != "" && p !in u then u + [p] else u;
      forall i, j | 0 <= i < j < |r|
        ensures r[i] != r[j]
      {
        assert r[i] == u[i];
        if j < |u| {
          assert r[j] == u[j];
        } else {
          assert r[j] == p && p !in u;
        }
      }
      forall i, j, k | 0 <= i < j < |r| && 0 <= k < |paths| && paths[k] == r[j]
        ensures r[i] in paths[..k]
      {
        assert r[i] == u[i];
        if k == |paths| - 1 {
          assert paths[..k] == init;
          assert u[i] in init;
        } else {
          assert paths[k] == init[k] && paths[..k] == init[..k];
          assert r[j] in u;
          assert j < |u|;
          assert r[j] == u[j];
          assert u[i] in init[..k];
        }
      }
    }
  }

  /** The first loop of `_extract_changed_files`: the path each header line names, in order. */
  method CollectNamedPaths(lines: seq<string>) returns (paths: seq<string>)
    ensures paths == NamedPaths(lines)
  {
    paths := [];
    for i := 0 to |lines|
      invariant paths == NamedPaths(lines[..i])
    {
      var line := lines[i];
      assert lines[..i + 1][..i] == lines[..i];
      if StartsWith(line, DIFF_HEADER) {
        var parts := Fields(line);
        if |parts| >= 4 {
          var a := if StartsWith(parts[2], OLD_MARK) then parts[2][2..] else parts[2];
          var b := if StartsWith(parts[3], NEW_MARK) then parts[3][2..] else parts[3];
          assert LinePath(line) == Some(if b != "" then b else a);
          paths := paths + [if b != "" then b else a];
        }
      } else if StartsWith(line, NEW_FILE_HEADER) {
        paths := paths + [line[|NEW_FILE_HEADER|..]];
      }
    }
    assert lines[..|lines|] == lines;
  }

  /** The second loop of `_extract_changed_files`: the non-empty paths, each kept at its first occurrence. */
  method Deduplicate(paths: seq<string>) returns (unique: seq<string>)
    ensures unique == FirstOccurrences(paths)
  {
    var seen: set<string> := {};
    unique := [];
    for i := 0 to |paths|
      invariant unique == FirstOccurrences(paths[..i])
      invariant forall p :: p in seen <==> p in unique
    {
      var path := paths[i];
      assert paths[..i + 1][..i] == paths[..i];
      if path != "" && path !in seen {
        seen := seen + {path};
        unique := unique + [path];
      }
    }
    assert paths[..|paths|] == paths;
  }

  /** `_extract_changed_files`: the paths the diff's header lines name, de-duplicated in first-occurrence order. */
  method ExtractChangedFiles(diff: string) returns (unique: seq<string>)
    ensures unique == FirstOccurrences(NamedPaths(SplitLines(diff)))
  {
    var paths := CollectNamedPaths(SplitLines(diff));
    unique := Deduplicate(paths);
  }

  // ---------------------------------------------------------------------
  // Added conditionals
  // ---------------------------------------------------------------------

  /** An added line (not the "+++" file header) whose lower-case text holds "if ", "elif " or "switch". */
  predicate AddedConditional(line: string) {
    StartsWith(line, "+") && !StartsWith(line, "+++") &&
    (Contains(Lower(line), "if ") || Contains(Lower(line), "elif ") || Contains(Lower(line), "switch"))
  }

  function ConditionalCount(lines: seq<string>): (n: nat)
    ensures n <= |lines|
    decreases |lines|
  {
    if lines == [] then 0
    else ConditionalCount(lines[..|lines| - 1]) + (if AddedConditional(lines[|lines| - 1]) then 1 else 0)
  }

  /** The count is zero exactly when no line is an added conditional. */
  lemma {:induction false} ConditionalCountZero(lines: seq<string>)
    ensures ConditionalCount(lines) == 0 <==> forall l :: l in lines ==> !AddedConditional(l)
    decreases |lines|
  {
    if lines != [] {
      var init := lines[..|lines| - 1];
      ConditionalCountZero(init);
      assert lines == init + [lines[|lines| - 1]];
    }
  }

  /** The "elif " test never decides anything: every line holding it also holds "if ". */
  lemma ElifRedundant(line: string)
    ensures AddedConditional(line) <==>
      StartsWith(line, "+") && !StartsWith(line, "+++") && (Contains(Lower(line), "if ") || Contains(Lower(line), "switch"))
  {
    if Contains(Lower(line), "elif ") {
      ContainsElifHasIf(Lower(line));
    }
  }

  /** `_count_added_conditionals`. */
  method CountAddedConditionals(diff: string) returns (count: nat)
    ensures count == ConditionalCount(SplitLines(diff))
  {
    var lines := SplitLines(diff);
    count := 0;
    for i := 0 to |lines|
      invariant count == ConditionalCount(lines[..i])
    {
      var line := lines[i];
      assert lines[..i + 1][..i] == lines[..i];
      if StartsWith(line, "+") && !StartsWith(line, "+++") {
        var lowered := Lower(line);
        if Contains(lowered, "if ") || Contains(lowered, "elif ") || Contains(lowered, "switch") {
          count := count + 1;
        }
      }
    }
    assert lines[..|lines|] == lines;
  }

  // ---------------------------------------------------------------------
  // Signals read off the paths and the diff text
  // ---------------------------------------------------------------------

  /** `path.split("/")[0]`: the text before the first slash. */
  function FirstDir(path: string): string {
    Split(path, '/')[0]
  }

  /** `path.split(".")[-1]`: the text after the last dot. */
  function Suffix(path: string): string {
    var parts := Split(path, '.');
    parts[|parts| - 1]
  }

  /** The first directory of each path that has one. */
  function Heads(paths: seq<string>): seq<string>
    decreases |paths|
  {
    if paths == [] then []
    else (if '/' in paths[0] then [FirstDir(paths[0])] else []) + Heads(paths[1..])
  }

  /** Exactly the first directories of the paths that hold a slash. */
  lemma {:induction false} HeadsMembers(paths: seq<string>)
    ensures forall p :: p in paths && '/' in p ==> FirstDir(p) in Heads(paths)
    ensures forall d :: d in Heads(paths) ==> exists p :: p in paths && '/' in p && FirstDir(p) == d
    decreases |paths|
  {
    if paths != [] {
      HeadsMembers(paths[1..]);
      assert forall p :: p in paths ==> p == paths[0] || p in paths[1..];
      assert forall p :: p in paths[1..] ==> p in paths;
    }
  }

  /** The suffix of each path that has a dot. */
  function Suffixes(paths: seq<string>): seq<string>
    decreases |paths|
  {
    if paths == [] then []
    else (if '.' in paths[0] then [Suffix(paths[0])] else []) + Suffixes(paths[1..])
  }

  /** Exactly the suffixes of the paths that hold a dot. */
  lemma {:induction false} SuffixesMembers(paths: seq<string>)
    ensures forall p :: p in paths && '.' in p ==> Suffix(p) in Suffixes(paths)
    ensures forall e :: e in Suffixes(paths) ==> exists p :: p in paths && '.' in p && Suffix(p) == e
    decreases |paths|
  {
    if paths != [] {
      SuffixesMembers(paths[1..]);
      assert forall p :: p in paths ==> p == paths[0] || p in paths[1..];
      assert forall p :: p in paths[1..] ==> p in paths;
    }
  }

  /** `top_dirs`: the sorted distinct first directories. */
  function TopDirs(paths: seq<string>): seq<string> {
    SortedSet(Heads(paths))
  }

  /** `extensions`: the sorted distinct file suffixes. */
  function Extensions(paths: seq<string>): seq<string> {
    SortedSet(Suffixes(paths))
  }

  /**
   * Both lists are increasing (so without duplicates) and hold exactly the
   * first directories, and the suffixes, of the paths.
   */
  lemma DirsAndTypes(paths: seq<string>)
    ensures Increasing(TopDirs(paths)) && Increasing(Extensions(paths))
    ensures forall i, j :: 0 <= i < j < |TopDirs(paths)| ==> TopDirs(paths)[i] != TopDirs(paths)[j]
    ensures forall d :: d in TopDirs(paths) <==> exists p :: p in paths && '/' in p && FirstDir(p) == d
    ensures forall e :: e in Extensions(paths) <==>
      exists p :: p in paths && '.' in p && Suffix(p) == e
  {
    HeadsMembers(paths);
    SuffixesMembers(paths);
    IncreasingDistinct(TopDirs(paths));
  }

  /** A path whose lower-cased text holds either of these is a test file. */
  const TEST_MARK: string := "test"
  const SPEC_MARK: string := "spec"

  /** Some path's lower-case form holds "test" or "spec". */
  predicate TestsTouched(paths: seq<string>)
    decreases |paths|
  {
    paths != [] &&
    (Contains(Lower(paths[0]), TEST_MARK) || Contains(Lower(paths[0]), SPEC_MARK) || TestsTouched(paths[1..]))
  }

  /** `any(k in text for k in keywords)`. */
  predicate AnyKeyword(text: string, keywords: seq<string>)
    decreases |keywords|
  {
    keywords != [] && (Contains(text, keywords[0]) || AnyKeyword(text, keywords[1..]))
  }

  /** Some keyword of the list occurs in the text. */
  lemma {:induction false} AnyKeywordIff(text: string, keywords: seq<string>)
    ensures AnyKeyword(text, keywords) <==> exists i :: 0 <= i < |keywords| && Contains(text, keywords[i])
    decreases |keywords|
  {
    if keywords != [] {
      AnyKeywordIff(text, keywords[1..]);
      if exists i :: 0 <= i < |keywords| && Contains(text, keywords[i]) {
        var i :| 0 <= i < |keywords| && Contains(text, keywords[i]);
        if i > 0 {
          assert Contains(text, keywords[1..][i - 1]);
        }
      }
      if exists i :: 0 <= i < |keywords[1..]| && Contains(text, keywords[1..][i]) {
        var i :| 0 <= i < |keywords[1..]| && Contains(text, keywords[1..][i]);
        assert Contains(text, keywords[i + 1]);
      }
    }
  }

  const AUTH_WORDS: seq<string> := ["auth", "token", "login"]
  const DB_WORDS: seq<string> := ["db", "database", "schema"]
  const INFRA_WORDS: seq<string> := ["docker", "k8s", "terraform", "infra"]
  const CONFIG_WORDS: seq<string> := ["config", "env", ".yml", ".yaml"]

  // ---------------------------------------------------------------------
  // The rule tables
  // ---------------------------------------------------------------------

  /** The request fields; a missing key reads as 0, 0, 0, "" and true. */
  datatype AnalysisInput = AnalysisInput(
    additions: Option<int>, deletions: Option<int>, changedFiles: Option<int>,
    diff: Option<string>, lintPassed: Option<bool>)

  function GetOr<T>(v: Option<T>, default: T): T {
    if v.Some? then v.value else default
  }

  /** Everything the rules read, once the diff has been scanned. */
  datatype Facts = Facts(
    additions: int, deletions: int, changedFiles: int, lintPassed: bool,
    topDirs: seq<string>, extensions: seq<string>, conditionals: nat, testsTouched: bool,
    auth: bool, db: bool, infra: bool, config: bool)

  function FactsOf(input: AnalysisInput): Facts {
    var lines := SplitLines(GetOr(input.diff, ""));
    FactsFrom(input, FirstOccurrences(NamedPaths(lines)), ConditionalCount(lines))
  }

  /** The facts, given the changed paths and the count of added conditionals that the two scans of the diff produce. */
  function FactsFrom(input: AnalysisInput, paths: seq<string>, conditionals: nat): Facts {
    var lowered := Lower(GetOr(input.diff, ""));
    Facts(GetOr(input.additions, 0), GetOr(input.deletions, 0), GetOr(input.changedFiles, 0), GetOr(input.lintPassed, true),
          TopDirs(paths), Extensions(paths), conditionals, TestsTouched(paths),
          AnyKeyword(lowered, AUTH_WORDS), AnyKeyword(lowered, DB_WORDS),
          AnyKeyword(lowered, INFRA_WORDS), AnyKeyword(lowered, CONFIG_WORDS))
  }

  function Total(f: Facts): int {
    f.additions + f.deletions
  }

  datatype Bucket = Small | Medium | Large

  function BucketOf(total: int): Bucket {
    if total > 300 then Large else if total > 100 then Medium else Small
  }

  function BucketName(b: Bucket): string {
    match b
    case Small => "small"
    case Medium => "medium"
    case Large => "large"
  }

  const SMALL_SUMMARY: string := "This pull request makes small, focused changes."
  const MEDIUM_SUMMARY: string := "This pull request introduces moderate changes affecting multiple areas."
  const LARGE_SUMMARY: string := "This pull request introduces a large set of changes across the codebase."

  /** The summary sentence, which depends on the size bucket only. */
  function SummaryFor(b: Bucket): string {
    match b
    case Small => SMALL_SUMMARY
    case Medium => MEDIUM_SUMMARY
    case Large => LARGE_SUMMARY
  }

  /** The summary names the bucket: large above 300 changed lines, moderate above 100, small otherwise. */
  lemma SummaryBySize(total: int)
    ensures SummaryFor(BucketOf(total)) == LARGE_SUMMARY <==> total > 300
    ensures SummaryFor(BucketOf(total)) == MEDIUM_SUMMARY <==> 100 < total <= 300
    ensures SummaryFor(BucketOf(total)) == SMALL_SUMMARY <==> total <= 100
  {
  }

  /** The pieces of the structural lines. */
  const SIZE_OPENING: string := "Change size: "
  const SIZE_DETAIL: string := " ("
  const ADDITIONS_TEXT: string := " additions, "
  const DELETIONS_TEXT: string := " deletions)."
  const FILES_OPENING: string := "Files changed: "
  const DIRS_OPENING: string := "Directories touched: "
  const TYPES_OPENING: string := "File types: "
  const LIST_SEPARATOR: string := ", "
  const FULL_STOP: string := "."

  function StructuralSignals(f: Facts): seq<string> {
    var s := [SIZE_OPENING + BucketName(BucketOf(Total(f))) + SIZE_DETAIL + IntToString(f.additions) + ADDITIONS_TEXT +
              IntToString(f.deletions) + DELETIONS_TEXT,
              FILES_OPENING + IntToString(f.changedFiles) + FULL_STOP];
    var s := AppendIf(s, f.topDirs != [], DIRS_OPENING + Join(f.topDirs, LIST_SEPARATOR) + FULL_STOP);
    AppendIf(s, f.extensions != [], TYPES_OPENING + Join(f.extensions, LIST_SEPARATOR) + FULL_STOP)
  }

  const AUTH_INSIGHT: string := "Authentication-related logic appears in the diff (auth/token/login)."
  const DB_INSIGHT: string := "Data persistence signals detected (db/database/schema)."
  const OPS_INSIGHT: string := "Operational configuration or infrastructure may be affected."
  const TESTS_INSIGHT: string := "Test files were modified, indicating potential coverage updates."
  const NO_TESTS_INSIGHT: string := "No test files detected in the diff."
  const LINT_INSIGHT: string := "Lint checks failed; treat other risks as higher confidence."

  const CONDITIONALS_OPENING: string := "Added "
  const CONDITIONALS_CLOSING: string := " new conditional branches, which can introduce new logic paths."

  function ConditionalsInsight(n: nat): string {
    CONDITIONALS_OPENING + IntToString(n) + CONDITIONALS_CLOSING
  }

  /** The insights for the signals found in the diff, before the test and lint lines. */
  function SignalInsights(f: Facts): seq<string> {
    var s := AppendIf([], f.conditionals > 0, ConditionalsInsight(f.conditionals));
    var s := AppendIf(s, f.auth, AUTH_INSIGHT);
    var s := AppendIf(s, f.db, DB_INSIGHT);
    AppendIf(s, f.infra || f.config, OPS_INSIGHT)
  }

  function SemanticInsights(f: Facts): seq<string> {
    var s := SignalInsights(f) + [if f.testsTouched then TESTS_INSIGHT else NO_TESTS_INSIGHT];
    AppendIf(s, !f.lintPassed, LINT_INSIGHT)
  }

  /**
   * Exactly one line speaks of tests, just before the lint line when there
   * is one; the list has one line per triggered signal besides.
   */
  lemma InsightsMeaning(f: Facts)
    ensures var s := SemanticInsights(f);
      |s| == 1 + Count(f.conditionals > 0) + Count(f.auth) + Count(f.db) + Count(f.infra || f.config) + Count(!f.lintPassed) &&
      s[|s| - 1 - Count(!f.lintPassed)] == (if f.testsTouched then TESTS_INSIGHT else NO_TESTS_INSIGHT) &&
      (!f.lintPassed ==> s[|s| - 1] == LINT_INSIGHT) &&
      (f.conditionals > 0 ==> s[0] == ConditionalsInsight(f.conditionals))
  {
  }

  const AUTH_SYNTHESIS: string :=
    "This change touches authentication-sensitive logic. A small diff can still introduce"
    + " high-impact failure modes (e.g., auth bypass or token handling errors)."
  const DB_SYNTHESIS: string :=
    "This change touches data persistence. Review for schema drift, migrations, or"
    + " backward compatibility issues."
  const OPS_SYNTHESIS: string :=
    "This change affects operational configuration. Misconfiguration can lead to"
    + " service instability or deployment issues."
  const CONDITIONALS_SYNTHESIS: string :=
    "New conditional logic was added. Review edge cases and ensure new branches"
    + " are exercised by tests."
  const DEFAULT_SYNTHESIS: string := "Changes appear low risk based on size and surface area."

  function SynthesisFor(f: Facts): string {
    if f.auth then AUTH_SYNTHESIS
    else if f.db then DB_SYNTHESIS
    else if f.infra || f.config then OPS_SYNTHESIS
    else if f.conditionals > 0 then CONDITIONALS_SYNTHESIS
    else DEFAULT_SYNTHESIS
  }

  /** The synthesis names the first concern in the order auth, data, operations, new conditionals. */
  lemma SynthesisPriority(f: Facts)
    ensures SynthesisFor(f) == AUTH_SYNTHESIS <==> f.auth
    ensures SynthesisFor(f) == DB_SYNTHESIS <==> !f.auth && f.db
    ensures SynthesisFor(f) == OPS_SYNTHESIS <==> !f.auth && !f.db && (f.infra || f.config)
    ensures SynthesisFor(f) == CONDITIONALS_SYNTHESIS <==> !f.auth && !f.db && !f.infra && !f.config && f.conditionals > 0
    ensures SynthesisFor(f) == DEFAULT_SYNTHESIS <==> !f.auth && !f.db && !f.infra && !f.config && f.conditionals == 0
  {
  }

  const LARGE_RISK: string := "Large pull request increases review complexity and the risk of hidden bugs."
  const MANY_FILES_RISK: string := "Changes span many files, increasing the chance of integration issues."
  const AUTH_RISK: string := "Authentication-related logic was modified, which is security-sensitive."
  const DB_RISK: string := "Data persistence changes can introduce migration or integrity risk."
  const LINT_RISK: string := "Lint checks failed, indicating potential code quality problems."

  /** More than this many changed lines is a large pull request. */
  const LARGE_TOTAL: int := 300
  /** More than this many changed files is a risk. */
  const MANY_FILES: int := 5

  function RiskList(f: Facts): seq<string> {
    var r := AppendIf([], Total(f) > LARGE_TOTAL, LARGE_RISK);
    var r := AppendIf(r, f.changedFiles > MANY_FILES, MANY_FILES_RISK);
    var r := AppendIf(r, f.auth, AUTH_RISK);
    var r := AppendIf(r, f.db, DB_RISK);
    AppendIf(r, !f.lintPassed, LINT_RISK)
  }

  function Count(b: bool): nat {
    if b then 1 else 0
  }

  /** One risk per triggered rule and none otherwise. */
  lemma RiskListMeaning(f: Facts)
    ensures var r := RiskList(f);
      |r| == Count(Total(f) > LARGE_TOTAL) + Count(f.changedFiles > MANY_FILES) + Count(f.auth) + Count(f.db) + Count(!f.lintPassed) &&
      (LARGE_RISK in r <==> Total(f) > LARGE_TOTAL) &&
      (MANY_FILES_RISK in r <==> f.changedFiles > MANY_FILES) &&
      (AUTH_RISK in r <==> f.auth) &&
      (DB_RISK in r <==> f.db) &&
      (LINT_RISK in r <==> !f.lintPassed)
  {
    RisksDistinct();
    var r1 := AppendIf([], Total(f) > LARGE_TOTAL, LARGE_RISK);
    var r2 := AppendIf(r1, f.changedFiles > MANY_FILES, MANY_FILES_RISK);
    var r3 := AppendIf(r2, f.auth, AUTH_RISK);
    var r4 := AppendIf(r3, f.db, DB_RISK);
    var r := AppendIf(r4, !f.lintPassed, LINT_RISK);
    assert r == RiskList(f);
    assert |r| == Count(Total(f) > LARGE_TOTAL) + Count(f.changedFiles > MANY_FILES) + Count(f.auth) + Count(f.db) + Count(!f.lintPassed);
    forall y | y in {LARGE_RISK, MANY_FILES_RISK, AUTH_RISK, DB_RISK, LINT_RISK}
      ensures y in r <==>
        (Total(f) > LARGE_TOTAL && y == LARGE_RISK) || (f.changedFiles > MANY_FILES && y == MANY_FILES_RISK) ||
        (f.auth && y == AUTH_RISK) || (f.db && y == DB_RISK) || (!f.lintPassed && y == LINT_RISK)
    {
      assert y !in [];
      AppendIfIn([], Total(f) > LARGE_TOTAL, LARGE_RISK, y);
      AppendIfIn(r1, f.changedFiles > MANY_FILES, MANY_FILES_RISK, y);
      AppendIfIn(r2, f.auth, AUTH_RISK, y);
      AppendIfIn(r3, f.db, DB_RISK, y);
      AppendIfIn(r4, !f.lintPassed, LINT_RISK, y);
    }
  }

  /** The five risks are different texts: their lengths differ. */
  lemma RisksDistinct()
    ensures LARGE_RISK != MANY_FILES_RISK && LARGE_RISK != AUTH_RISK && LARGE_RISK != DB_RISK && LARGE_RISK != LINT_RISK
    ensures MANY_FILES_RISK != AUTH_RISK && MANY_FILES_RISK != DB_RISK && MANY_FILES_RISK != LINT_RISK
    ensures AUTH_RISK != DB_RISK && AUTH_RISK != LINT_RISK && DB_RISK != LINT_RISK
  {
    assert |LARGE_RISK| == 75 && |MANY_FILES_RISK| == 69 && |AUTH_RISK| == 71;
    assert |DB_RISK| == 67 && |LINT_RISK| == 63;
  }

  const SPLIT_SUGGESTION: string := "Consider splitting this pull request into smaller changes."
  const LINT_SUGGESTION: string := "Resolve lint issues before merging to maintain code quality."
  const AUTH_TESTS_SUGGESTION: string := "Add or review tests covering authentication edge cases."
  const DB_TESTS_SUGGESTION: string := "Add or review tests covering data migrations and queries."
  const BRANCH_TESTS_SUGGESTION: string := "Add tests for new logic branches and edge cases."

  function SuggestionList(f: Facts): seq<string> {
    var s := AppendIf([], Total(f) > LARGE_TOTAL, SPLIT_SUGGESTION);
    var s := AppendIf(s, !f.lintPassed, LINT_SUGGESTION);
    var s := AppendIf(s, f.auth && !f.testsTouched, AUTH_TESTS_SUGGESTION);
    var s := AppendIf(s, f.db && !f.testsTouched, DB_TESTS_SUGGESTION);
    AppendIf(s, f.conditionals > 0 && !f.testsTouched, BRANCH_TESTS_SUGGESTION)
  }

  /** Each suggestion has its trigger; the three test suggestions only appear when no test file was touched. */
  lemma SuggestionListMeaning(f: Facts)
    ensures var s := SuggestionList(f);
      (SPLIT_SUGGESTION in s <==> Total(f) > LARGE_TOTAL) &&
      (LINT_SUGGESTION in s <==> !f.lintPassed) &&
      (AUTH_TESTS_SUGGESTION in s <==> f.auth && !f.testsTouched) &&
      (DB_TESTS_SUGGESTION in s <==> f.db && !f.testsTouched) &&
      (BRANCH_TESTS_SUGGESTION in s <==> f.conditionals > 0 && !f.testsTouched) &&
      (f.testsTouched ==> |s| <= 2)
  {
    SuggestionsDistinct();
    var t := !f.testsTouched;
    var s1 := AppendIf([], Total(f) > LARGE_TOTAL, SPLIT_SUGGESTION);
    var s2 := AppendIf(s1, !f.lintPassed, LINT_SUGGESTION);
    var s3 := AppendIf(s2, f.auth && t, AUTH_TESTS_SUGGESTION);
    var s4 := AppendIf(s3, f.db && t, DB_TESTS_SUGGESTION);
    var s := AppendIf(s4, f.conditionals > 0 && t, BRANCH_TESTS_SUGGESTION);
    assert s == SuggestionList(f);
    forall y | y in {SPLIT_SUGGESTION, LINT_SUGGESTION, AUTH_TESTS_SUGGESTION, DB_TESTS_SUGGESTION, BRANCH_TESTS_SUGGESTION}
      ensures y in s <==>
        (Total(f) > LARGE_TOTAL && y == SPLIT_SUGGESTION) || (!f.lintPassed && y == LINT_SUGGESTION) ||
        (f.auth && t && y == AUTH_TESTS_SUGGESTION) || (f.db && t && y == DB_TESTS_SUGGESTION) ||
        (f.conditionals > 0 && t && y == BRANCH_TESTS_SUGGESTION)
    {
      assert y !in [];
      AppendIfIn([], Total(f) > LARGE_TOTAL, SPLIT_SUGGESTION, y);
      AppendIfIn(s1, !f.lintPassed, LINT_SUGGESTION, y);
      AppendIfIn(s2, f.auth && t, AUTH_TESTS_SUGGESTION, y);
      AppendIfIn(s3, f.db && t, DB_TESTS_SUGGESTION, y);
      AppendIfIn(s4, f.conditionals > 0 && t, BRANCH_TESTS_SUGGESTION, y);
    }
  }

  /** The five suggestions are different texts: their lengths differ. */
  lemma SuggestionsDistinct()
    ensures SPLIT_SUGGESTION != LINT_SUGGESTION && SPLIT_SUGGESTION != AUTH_TESTS_SUGGESTION
    ensures SPLIT_SUGGESTION != DB_TESTS_SUGGESTION && SPLIT_SUGGESTION != BRANCH_TESTS_SUGGESTION
    ensures LINT_SUGGESTION != AUTH_TESTS_SUGGESTION && LINT_SUGGESTION != DB_TESTS_SUGGESTION
    ensures LINT_SUGGESTION != BRANCH_TESTS_SUGGESTION
    ensures AUTH_TESTS_SUGGESTION != DB_TESTS_SUGGESTION && AUTH_TESTS_SUGGESTION != BRANCH_TESTS_SUGGESTION
    ensures DB_TESTS_SUGGESTION != BRANCH_TESTS_SUGGESTION
  {
    assert |SPLIT_SUGGESTION| == 58 && |LINT_SUGGESTION| == 60 && |AUTH_TESTS_SUGGESTION| == 55;
    assert |DB_TESTS_SUGGESTION| == 57 && |BRANCH_TESTS_SUGGESTION| == 48;
  }

  /** The result of `analyze_pull_request`. */
  datatype Analysis = Analysis(
    summary: string, structuralSignals: seq<string>, semanticInsights: seq<string>, synthesis: string,
    risks: seq<string>, suggestions: seq<string>, healthDelta: int, baselineScore: real, semanticScore: int)

  /** The structural pass: the size bucket's sentence, and the size, file-count, directory and file-type lines. */
  method StructuralPass(f: Facts) returns (summary: string, signals: seq<string>)
    ensures summary == SummaryFor(BucketOf(Total(f)))
    ensures signals == StructuralSignals(f)
    ensures 2 <= |signals| <= 4
  {
    var total := f.additions + f.deletions;
    var bucket := Small;
    if total > 300 {
      bucket := Large;
    } else if total > 100 {
      bucket := Medium;
    }
    signals := [
      SIZE_OPENING + BucketName(bucket) + SIZE_DETAIL + IntToString(f.additions) + ADDITIONS_TEXT +
      IntToString(f.deletions) + DELETIONS_TEXT,
      FILES_OPENING + IntToString(f.changedFiles) + FULL_STOP];
    if f.topDirs != [] {
      signals := signals + [DIRS_OPENING + Join(f.topDirs, LIST_SEPARATOR) + FULL_STOP];
    }
    if f.extensions != [] {
      signals := signals + [TYPES_OPENING + Join(f.extensions, LIST_SEPARATOR) + FULL_STOP];
    }
    summary := SMALL_SUMMARY;
    if bucket == Large {
      summary := LARGE_SUMMARY;
    } else if bucket == Medium {
      summary := MEDIUM_SUMMARY;
    }
  }

  /** The semantic and synthesis passes. */
  method SemanticPass(f: Facts) returns (insights: seq<string>, synthesis: string)
    ensures insights == SemanticInsights(f)
    ensures synthesis == SynthesisFor(f)
  {
    var testsTouched := f.testsTouched;
    insights := [];
    if f.conditionals > 0 {
      insights := insights + [ConditionalsInsight(f.conditionals)];
    }
    ghost var s1 := AppendIf([], f.conditionals > 0, ConditionalsInsight(f.conditionals));
    assert insights == s1;
    if f.auth {
      insights := insights + [AUTH_INSIGHT];
    }
    ghost var s2 := AppendIf(s1, f.auth, AUTH_INSIGHT);
    assert insights == s2;
    if f.db {
      insights := insights + [DB_INSIGHT];
    }
    assert insights == AppendIf(s2, f.db, DB_INSIGHT);
    if f.infra || f.config {
      insights := insights + [OPS_INSIGHT];
    }
    assert insights == SignalInsights(f);
    if testsTouched {
      insights := insights + [TESTS_INSIGHT];
    } else {
      insights := insights + [NO_TESTS_INSIGHT];
    }
    if !f.lintPassed {
      insights := insights + [LINT_INSIGHT];
    }

    synthesis := DEFAULT_SYNTHESIS;
    if f.auth {
      synthesis := AUTH_SYNTHESIS;
    } else if f.db {
      synthesis := DB_SYNTHESIS;
    } else if f.infra || f.config {
      synthesis := OPS_SYNTHESIS;
    } else if f.conditionals > 0 {
      synthesis := CONDITIONALS_SYNTHESIS;
    }
  }

  /** The risk and suggestion tables. */
  method RiskPass(f: Facts) returns (risks: seq<string>, suggestions: seq<string>)
    ensures risks == RiskList(f)
    ensures suggestions == SuggestionList(f)
  {
    var testsTouched := f.testsTouched;
    var large := f.additions + f.deletions > 300;
    risks := [];
    if large {
      risks := risks + [LARGE_RISK];
    }
    if f.changedFiles > 5 {
      risks := risks + [MANY_FILES_RISK];
    }
    if f.auth {
      risks := risks + [AUTH_RISK];
    }
    if f.db {
      risks := risks + [DB_RISK];
    }
    if !f.lintPassed {
      risks := risks + [LINT_RISK];
    }

    suggestions := [];
    if large {
      suggestions := suggestions + [SPLIT_SUGGESTION];
    }
    if !f.lintPassed {
      suggestions := suggestions + [LINT_SUGGESTION];
    }
    if f.auth && !testsTouched {
      suggestions := suggestions + [AUTH_TESTS_SUGGESTION];
    }
    if f.db && !testsTouched {
      suggestions := suggestions + [DB_TESTS_SUGGESTION];
    }
    if f.conditionals > 0 && !testsTouched {
      suggestions := suggestions + [BRANCH_TESTS_SUGGESTION];
    }
  }

  /** `semantic_score`: 50, raised for auth, db and many files, lowered for failed lint. */
  function SemanticScoreFor(f: Facts): int {
    50 + 20 * Count(f.auth) + 10 * Count(f.db) + 10 * Count(f.changedFiles > MANY_FILES) - 10 * Count(!f.lintPassed)
  }

  /** `health_delta`: -3 for a large change, -2 for failed lint, +2 when there is no risk at all. */
  function HealthDeltaFor(f: Facts): int {
    -3 * Count(Total(f) > LARGE_TOTAL) - 2 * Count(!f.lintPassed) + 2 * Count(RiskList(f) == [])
  }

  /** `baseline_score = max(0, 100 - min(total / 10, 50))`, over the reals. */
  function Baseline(total: int): (b: real)
    ensures 50.0 <= b
    ensures b <= 100.0 <==> total >= 0
    ensures 0 <= total < 500 ==> b == 100.0 - total as real / 10.0
    ensures total >= 500 ==> b == 50.0
  {
    var tenth := total as real / 10.0;
    var capped := if tenth < 50.0 then tenth else 50.0;
    if 100.0 - capped > 0.0 then 100.0 - capped else 0.0
  }

  /**
   * The semantic score stays within [40,90], so its clamp to [0,100] never
   * acts; the health delta is +2 exactly when there is no risk, and
   * otherwise -5, -3, -2 or 0 by the size and lint rules.
   */
  lemma ScoresMeaning(f: Facts)
    ensures 40 <= SemanticScoreFor(f) <= 90
    ensures HealthDeltaFor(f) in {-5, -3, -2, 0, 2}
    ensures HealthDeltaFor(f) == 2 <==> RiskList(f) == []
    ensures HealthDeltaFor(f) == -5 <==> Total(f) > LARGE_TOTAL && !f.lintPassed
    ensures HealthDeltaFor(f) == -3 <==> Total(f) > LARGE_TOTAL && f.lintPassed
    ensures HealthDeltaFor(f) == -2 <==> Total(f) <= LARGE_TOTAL && !f.lintPassed
  {
    RiskListMeaning(f);
  }

  /** The whole result of `analyze_pull_request` for a request. */
  function AnalysisOf(input: AnalysisInput): Analysis {
    var f := FactsOf(input);
    Analysis(SummaryFor(BucketOf(Total(f))), StructuralSignals(f), SemanticInsights(f), SynthesisFor(f),
             RiskList(f), SuggestionList(f), HealthDeltaFor(f), Baseline(Total(f)), SemanticScoreFor(f))
  }

  /** The two scores and the health delta; `risks` is the risk table's output. */
  method ScorePass(f: Facts, risks: seq<string>) returns (semanticScore: int, healthDelta: int, baseline: real)
    requires risks == RiskList(f)
    ensures semanticScore == SemanticScoreFor(f)
    ensures healthDelta == HealthDeltaFor(f)
    ensures baseline == Baseline(Total(f))
  {
    ScoresMeaning(f);
    var total := f.additions + f.deletions;
    semanticScore := 50;
    if f.auth {
      semanticScore := semanticScore + 20;
    }
    if f.db {
      semanticScore := semanticScore + 10;
    }
    if f.changedFiles > 5 {
      semanticScore := semanticScore + 10;
    }
    if !f.lintPassed {
      semanticScore := semanticScore - 10;
    }
    semanticScore := if semanticScore > 100 then 100 else semanticScore;
    semanticScore := if semanticScore < 0 then 0 else semanticScore;

    healthDelta := 0;
    if total > 300 {
      healthDelta := healthDelta - 3;
    }
    if !f.lintPassed {
      healthDelta := healthDelta - 2;
    }
    if risks == [] {
      healthDelta := healthDelta + 2;
    }

    var tenth := total as real / 10.0;
    var capped := if tenth < 50.0 then tenth else 50.0;
    baseline := if 100.0 - capped > 0.0 then 100.0 - capped else 0.0;
  }

  /** The reads at the head of `analyze_pull_request`: the request fields with their defaults, and the scans of the diff. */
  method ScanDiff(input: AnalysisInput) returns (f: Facts)
    ensures f == FactsOf(input)
  {
    var diff := GetOr(input.diff, "");
    var paths := ExtractChangedFiles(diff);
    var conditionals := CountAddedConditionals(diff);
    f := FactsFrom(input, paths, conditionals);
  }

  /** `analyze_pull_request`: the diff is scanned, then the passes run in the order of the source. */
  method AnalyzePullRequest(input: AnalysisInput) returns (r: Analysis)
    ensures r == AnalysisOf(input)
  {
    var f := ScanDiff(input);
    var summary, structural := StructuralPass(f);
    var insights, synthesis := SemanticPass(f);
    var risks, suggestions := RiskPass(f);
    var semanticScore, healthDelta, baseline := ScorePass(f, risks);
    r := Analysis(summary, structural, insights, synthesis, risks, suggestions, healthDelta, baseline, semanticScore);
  }
}
