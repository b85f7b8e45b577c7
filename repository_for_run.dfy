/**
 * The run-to-repository matcher of `useRepositoryForRun`: given a run and the
 * ordered list of loaded repository options, decide which option the run's
 * pipeline belongs to and which kind of evidence decided it.
 *
 * The two helpers the matcher calls, `repoContainsPipeline` and
 * `findRepoContainingPipeline`, are not part of this model; they are carried as
 * uninterpreted functions in a `PipelineLookup`, and every property below is
 * stated in terms of what they return.
 */
module RepositoryForRun {
  import opened Optional
  import opened Js

  /**
   * One pipeline or job definition of a loaded repository. Only the uninterpreted
   * lookups could read it; it gives `RepoOption` the shape of the workspace data.
   */
  datatype PipelineSummary = PipelineSummary(
    name: string,
    pipelineSnapshotId: string,
    parentSnapshotId: Option<string>)

  /** A loaded repository, addressed by its name and the name of its location. */
  datatype RepoOption = RepoOption(
    repositoryName: string,
    repositoryLocationName: string,
    pipelines: seq<PipelineSummary>)

  /** The repository a run records it was launched from. */
  datatype RepositoryOrigin = RepositoryOrigin(repositoryName: string, repositoryLocationName: string)

  /** The fields of a run that the matcher reads. */
  datatype Run = Run(
    pipelineName: string,
    repositoryOrigin: Option<RepositoryOrigin>,
    pipelineSnapshotId: Option<string>,
    parentPipelineSnapshotId: Option<string>)

  /** The kind of evidence a match rests on, strongest first. */
  datatype MatchType = OriginAndSnapshot | OriginOnly | SnapshotOnly | PipelineNameOnly

  /** The matcher's answer: the chosen option (`match`) and the evidence (`type`). */
  datatype RepoMatch = RepoMatch(repo: RepoOption, matchType: MatchType)

  /**
   * The helpers imported from `findRepoContainingPipeline`, left uninterpreted.
   * `findRepoContainingPipeline` is called with and without a snapshot id;
   * `None` stands for the call without one.
   */
  datatype PipelineLookup = PipelineLookup(
    repoContainsPipeline: (RepoOption, string) -> bool,
    findRepoContainingPipeline: (seq<RepoOption>, string, Option<string>) -> seq<RepoOption>)

  predicate HasAddress(option: RepoOption, name: string, location: string) {
    option.repositoryName == name && option.repositoryLocationName == location
  }

  /** `options[i]` is the first option with this repository name and location name. */
  predicate IsFirstWithAddress(options: seq<RepoOption>, i: int, name: string, location: string) {
    0 <= i < |options| && HasAddress(options[i], name, location) &&
    forall j | 0 <= j < i :: !HasAddress(options[j], name, location)
  }

  /**
   * `Array.prototype.find` with the test "same repository name and same location
   * name", as both the origin lookup and the origin-and-snapshot lookup use it.
   */
  function FindByAddress(options: seq<RepoOption>, name: string, location: string): (r: Option<RepoOption>)
    ensures r.None? <==> forall i | 0 <= i < |options| :: !HasAddress(options[i], name, location)
    ensures r.Some? ==> exists i :: IsFirstWithAddress(options, i, name, location) && options[i] == r.value
  {
    if |options| == 0 then None
    else if HasAddress(options[0], name, location) then
      assert IsFirstWithAddress(options, 0, name, location);
      Some(options[0])
    else
      var r := FindByAddress(options[1..], name, location);
      assert r.Some? ==> exists i :: IsFirstWithAddress(options, i, name, location) && options[i] == r.value by {
        if r.Some? {
          var i :| IsFirstWithAddress(options[1..], i, name, location) && options[1..][i] == r.value;
          assert IsFirstWithAddress(options, i + 1, name, location);
        }
      }
      r
  }

  /** The first option whose address is the origin's, if the run has an origin. */
  function OriginOption(run: Run, options: seq<RepoOption>): (r: Option<RepoOption>)
    ensures r.Some? ==> run.repositoryOrigin.Some?
    ensures r.Some? ==>
      var origin := run.repositoryOrigin.value;
      exists i :: IsFirstWithAddress(options, i, origin.repositoryName, origin.repositoryLocationName)
        && options[i] == r.value
    ensures (run.repositoryOrigin.Some? &&
             exists i | 0 <= i < |options| ::
               HasAddress(options[i], run.repositoryOrigin.value.repositoryName,
                          run.repositoryOrigin.value.repositoryLocationName))
            ==> r.Some?
  {
    match run.repositoryOrigin
    case None => None
    case Some(origin) => FindByAddress(options, origin.repositoryName, origin.repositoryLocationName)
  }

  /**
   * `repoMatch`: the first option with the origin's repository name and location
   * name, kept only when it still contains the run's pipeline.
   */
  function RepoMatchOf(run: Option<Run>, options: seq<RepoOption>, lookup: PipelineLookup): (r: Option<RepoOption>)
    ensures r.Some? ==> run.Some? && run.value.repositoryOrigin.Some?
    ensures r.Some? ==>
      var origin := run.value.repositoryOrigin.value;
      exists i :: IsFirstWithAddress(options, i, origin.repositoryName, origin.repositoryLocationName)
        && options[i] == r.value
    ensures r.Some? ==> lookup.repoContainsPipeline(r.value, run.value.pipelineName)
    ensures run.Some? && run.value.repositoryOrigin.Some? ==>
      var origin := run.value.repositoryOrigin.value;
      forall i | IsFirstWithAddress(options, i, origin.repositoryName, origin.repositoryLocationName) ::
        r.Some? <==> lookup.repoContainsPipeline(options[i], run.value.pipelineName)
  {
    match run
    case None => None
    case Some(run) =>
      var found := OriginOption(run, options);
      if found.Some? && lookup.repoContainsPipeline(found.value, run.pipelineName) then found else None
  }

  /** The snapshot id used for matching: the parent's when present (`??`), else the run's own. */
  function EffectiveSnapshotId(run: Run): (r: Option<string>)
    ensures run.parentPipelineSnapshotId.Some? ==> r == run.parentPipelineSnapshotId
    ensures run.parentPipelineSnapshotId.None? ==> r == run.pipelineSnapshotId
  {
    match run.parentPipelineSnapshotId
    case Some(parent) => Some(parent)
    case None => run.pipelineSnapshotId
  }

  /**
   * `snapshotMatches`: what `findRepoContainingPipeline` returns for the pipeline
   * name and the effective snapshot id, asked only when both are truthy, and
   * `null` in place of an empty list.
   */
  function SnapshotMatchesOf(run: Option<Run>, options: seq<RepoOption>, lookup: PipelineLookup)
    : (r: Option<seq<RepoOption>>)
    ensures r.Some? ==> |r.value| > 0
    ensures r.Some? <==>
      run.Some? && run.value.pipelineName != "" && TruthyString(EffectiveSnapshotId(run.value)) &&
      |lookup.findRepoContainingPipeline(options, run.value.pipelineName, EffectiveSnapshotId(run.value))| > 0
    ensures r.Some? ==>
      r.value == lookup.findRepoContainingPipeline(options, run.value.pipelineName, EffectiveSnapshotId(run.value))
  {
    match run
    case None => None
    case Some(run) =>
      var snapshotId := EffectiveSnapshotId(run);
      if run.pipelineName != "" && TruthyString(snapshotId) then
        var matches := lookup.findRepoContainingPipeline(options, run.pipelineName, snapshotId);
        if |matches| > 0 then Some(matches) else None
      else None
  }

  /**
   * `pipelineNameMatches`: what `findRepoContainingPipeline` returns for the
   * pipeline name alone, and `null` in place of an empty list. There is no
   * truthiness test on the name here.
   */
  function PipelineNameMatchesOf(run: Option<Run>, options: seq<RepoOption>, lookup: PipelineLookup)
    : (r: Option<seq<RepoOption>>)
    ensures r.Some? ==> |r.value| > 0
    ensures r.Some? <==> run.Some? && |lookup.findRepoContainingPipeline(options, run.value.pipelineName, None)| > 0
    ensures r.Some? ==> r.value == lookup.findRepoContainingPipeline(options, run.value.pipelineName, None)
  {
    match run
    case None => None
    case Some(run) =>
      var matches := lookup.findRepoContainingPipeline(options, run.pipelineName, None);
      if |matches| > 0 then Some(matches) else None
  }

  /** `useRepositoryForRun`: rank the three candidates. */
  function UseRepositoryForRun(run: Option<Run>, options: seq<RepoOption>, lookup: PipelineLookup)
    : (r: Option<RepoMatch>)
    ensures r.Some? ==> run.Some?
  {
    var repoMatch := RepoMatchOf(run, options, lookup);
    var snapshotMatches := SnapshotMatchesOf(run, options, lookup);
    var pipelineNameMatches := PipelineNameMatchesOf(run, options, lookup);
    if repoMatch.Some? then
      var m := repoMatch.value;
      var both := if snapshotMatches.Some?
        then FindByAddress(snapshotMatches.value, m.repositoryName, m.repositoryLocationName)
        else None;
      if both.Some? then Some(RepoMatch(both.value, OriginAndSnapshot))
      else Some(RepoMatch(m, OriginOnly))
    else if snapshotMatches.Some? then
      Some(RepoMatch(snapshotMatches.value[0], SnapshotOnly))
    else if pipelineNameMatches.Some? then
      Some(RepoMatch(pipelineNameMatches.value[0], PipelineNameOnly))
    else
      None
  }

  predicate IsOriginType(t: MatchType) {
    t == OriginAndSnapshot || t == OriginOnly
  }

  // ---------------------------------------------------------------------------
  // Properties of the ranking.
  // ---------------------------------------------------------------------------

  /** Without a run every candidate, and so the answer, is null. */
  lemma NoRunNoMatch(options: seq<RepoOption>, lookup: PipelineLookup)
    ensures RepoMatchOf(None, options, lookup).None?
    ensures SnapshotMatchesOf(None, options, lookup).None?
    ensures PipelineNameMatchesOf(None, options, lookup).None?
    ensures UseRepositoryForRun(None, options, lookup).None?
  {
  }

  /** A run without an origin never gets an origin-typed answer. */
  lemma NoOriginNoOriginType(run: Run, options: seq<RepoOption>, lookup: PipelineLookup)
    requires run.repositoryOrigin.None?
    ensures var r := UseRepositoryForRun(Some(run), options, lookup);
      r.Some? ==> !IsOriginType(r.value.matchType)
  {
  }

  /**
   * When the first option with the origin's address contains the pipeline, the
   * answer is origin-typed whatever the snapshot and name matches are.
   */
  lemma OriginContainingPipelineWins(run: Run, options: seq<RepoOption>, lookup: PipelineLookup, i: nat)
    requires run.repositoryOrigin.Some?
    requires IsFirstWithAddress(options, i, run.repositoryOrigin.value.repositoryName,
                                run.repositoryOrigin.value.repositoryLocationName)
    requires lookup.repoContainsPipeline(options[i], run.pipelineName)
    ensures var r := UseRepositoryForRun(Some(run), options, lookup);
      r.Some? && IsOriginType(r.value.matchType)
    ensures UseRepositoryForRun(Some(run), options, lookup).value.matchType == OriginOnly ==>
      UseRepositoryForRun(Some(run), options, lookup).value.repo == options[i]
  {
  }

  /**
   * An origin-and-snapshot answer is the first snapshot match with the origin
   * match's address; an origin match that some snapshot match shares is answered
   * origin-and-snapshot, and one that none shares is answered origin-only with
   * the origin match itself.
   */
  lemma OriginAndSnapshotIsConfirmedOrigin(run: Option<Run>, options: seq<RepoOption>, lookup: PipelineLookup)
    ensures var r := UseRepositoryForRun(run, options, lookup);
      var m := RepoMatchOf(run, options, lookup);
      var s := SnapshotMatchesOf(run, options, lookup);
      r.Some? && r.value.matchType == OriginAndSnapshot ==>
        m.Some? && s.Some? &&
        exists k :: IsFirstWithAddress(s.value, k, m.value.repositoryName, m.value.repositoryLocationName)
          && s.value[k] == r.value.repo
    ensures var r := UseRepositoryForRun(run, options, lookup);
      var m := RepoMatchOf(run, options, lookup);
      var s := SnapshotMatchesOf(run, options, lookup);
      m.Some? && (s.None? || forall k | 0 <= k < |s.value| ::
                    !HasAddress(s.value[k], m.value.repositoryName, m.value.repositoryLocationName)) ==>
        r == Some(RepoMatch(m.value, OriginOnly))
    ensures var r := UseRepositoryForRun(run, options, lookup);
      var m := RepoMatchOf(run, options, lookup);
      var s := SnapshotMatchesOf(run, options, lookup);
      m.Some? && s.Some? && (exists k | 0 <= k < |s.value| ::
                               HasAddress(s.value[k], m.value.repositoryName, m.value.repositoryLocationName)) ==>
        r.Some? && r.value.matchType == OriginAndSnapshot
  {
    var m := RepoMatchOf(run, options, lookup);
    var s := SnapshotMatchesOf(run, options, lookup);
    if m.Some? && s.Some? && (exists k | 0 <= k < |s.value| ::
                                HasAddress(s.value[k], m.value.repositoryName, m.value.repositoryLocationName)) {
      var f := FindByAddress(s.value, m.value.repositoryName, m.value.repositoryLocationName);
      assert f.Some?;
    }
  }

  /** The snapshot lookup is skipped when the pipeline name or the effective snapshot id is falsy. */
  lemma SnapshotLookupNeedsTruthyIds(run: Run, options: seq<RepoOption>, lookup: PipelineLookup)
    requires run.pipelineName == "" || !TruthyString(EffectiveSnapshotId(run))
    ensures SnapshotMatchesOf(Some(run), options, lookup).None?
  {
  }

  /** Snapshot-only answers come exactly when there is no origin match and some snapshot match; they are the first one. */
  lemma SnapshotOnlyIsFirstSnapshotMatch(run: Option<Run>, options: seq<RepoOption>, lookup: PipelineLookup)
    ensures var r := UseRepositoryForRun(run, options, lookup);
      var s := SnapshotMatchesOf(run, options, lookup);
      (r.Some? && r.value.matchType == SnapshotOnly) <==> RepoMatchOf(run, options, lookup).None? && s.Some?
    ensures var r := UseRepositoryForRun(run, options, lookup);
      r.Some? && r.value.matchType == SnapshotOnly ==> r.value.repo == SnapshotMatchesOf(run, options, lookup).value[0]
  {
  }

  /** Name-only answers come exactly when there is neither an origin nor a snapshot match; they are the first name match. */
  lemma PipelineNameOnlyIsFirstNameMatch(run: Option<Run>, options: seq<RepoOption>, lookup: PipelineLookup)
    ensures var r := UseRepositoryForRun(run, options, lookup);
      (r.Some? && r.value.matchType == PipelineNameOnly) <==>
        RepoMatchOf(run, options, lookup).None? && SnapshotMatchesOf(run, options, lookup).None? &&
        PipelineNameMatchesOf(run, options, lookup).Some?
    ensures var r := UseRepositoryForRun(run, options, lookup);
      r.Some? && r.value.matchType == PipelineNameOnly ==>
        r.value.repo == PipelineNameMatchesOf(run, options, lookup).value[0]
  {
  }

  /** The answer is null exactly when no candidate exists. */
  lemma NullIffNoCandidate(run: Option<Run>, options: seq<RepoOption>, lookup: PipelineLookup)
    ensures UseRepositoryForRun(run, options, lookup).None? <==>
      RepoMatchOf(run, options, lookup).None? && SnapshotMatchesOf(run, options, lookup).None? &&
      PipelineNameMatchesOf(run, options, lookup).None?
  {
  }

  /**
   * When the lookup only ever returns loaded options, so does the matcher.
   */
  lemma AnswerIsLoadedOption(run: Option<Run>, options: seq<RepoOption>, lookup: PipelineLookup)
    requires forall name, snapshotId, o | o in lookup.findRepoContainingPipeline(options, name, snapshotId) ::
      o in options
    ensures var r := UseRepositoryForRun(run, options, lookup);
      r.Some? ==> r.value.repo in options
  {
  }
}
