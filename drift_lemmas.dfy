/** What `run_check` promises, proved about its specification in `DriftCheck`: one record per
    environment, the stage each record stops at and the fields it then carries, the drift
    arithmetic, the owner gate and the primary branch. */
module DriftLemmas {
  import opened Wrappers
  import opened Text
  import opened Gateways
  import opened PipelineConfig
  import opened Records
  import opened DriftCheck
  import opened Sequences

  /** Every environment ends in exactly one `write_record` unless a call outside any `try` raises:
      the run writes the records of the environments before the first one that aborts, in order,
      and completes exactly when none aborts. */
  lemma {:induction false} OneRecordPerEnvironment(b: Baseline, entries: seq<EnvEntry>, gh: GitHub, cf: CloudFoundry)
    ensures var r := EnvsRun(b, entries, gh, cf);
            |r.records| <= |entries| &&
            (forall k :: 0 <= k < |r.records| ==>
               ResolveEnv(b, entries[k], gh, cf).Emitted? &&
               r.records[k] == Record(b.app, ResolveEnv(b, entries[k], gh, cf).env)) &&
            (r.completed <==> |r.records| == |entries|) &&
            (!r.completed ==> ResolveEnv(b, entries[|r.records|], gh, cf).Aborted?)
    decreases |entries|
  {
    if entries != [] {
      var init := entries[..|entries| - 1];
      OneRecordPerEnvironment(b, init, gh, cf);
      var prev := EnvsRun(b, init, gh, cf);
      if prev.completed {
        var r := EnvsRun(b, entries, gh, cf);
        forall k | 0 <= k < |prev.records|
          ensures r.records[k] == prev.records[k] && entries[k] == init[k]
        {
        }
      } else {
        assert entries[|prev.records|] == init[|prev.records|];
        forall k | 0 <= k < |prev.records|
          ensures entries[k] == init[k]
        {
        }
      }
    }
  }

  /** The run completes exactly when no environment aborts it. */
  lemma CompletesIffNoneAborts(b: Baseline, entries: seq<EnvEntry>, gh: GitHub, cf: CloudFoundry)
    ensures EnvsRun(b, entries, gh, cf).completed <==>
            forall k :: 0 <= k < |entries| ==> ResolveEnv(b, entries[k], gh, cf).Emitted?
  {
    OneRecordPerEnvironment(b, entries, gh, cf);
    var r := EnvsRun(b, entries, gh, cf);
    if !r.completed {
      assert ResolveEnv(b, entries[|r.records|], gh, cf).Aborted?;
    }
  }

  /** Lines 95-100: a declaration whose cleaned `scm` does not contain "uktrade" writes exactly one
      record, carrying the message and no environment data, and no repository or Cloud Foundry
      call is made for it. */
  lemma RejectedPipelineWritesOneRecord(file: string, scanStart: int, tokens: seq<string>,
                                        fetch: string -> Reply<Config>, gh: GitHub, cf: CloudFoundry,
                                        raw: Config, scm: string)
    requires fetch(file) == Ok(raw) && raw.scm.Some?
    requires scm == StripAll(raw.scm.value, tokens) && !Contains(scm, Owner)
    ensures var config := raw.(scm := Some(scm));
            PipelineRun(file, scanStart, tokens, fetch, gh, cf) ==
              Run([Record(NoAppFields.(configFilename := Some(file), scanStartTime := Some(scanStart),
                                       config := Some(config)),
                          NoEnvFields.(logMessage := Some(NotOwnerMessage(scm))))], true)
  {
  }

  /** Lines 95-237: an accepted declaration whose repository reads succeed writes one record per
      environment when the run completes, each on the same baseline. */
  lemma AcceptedPipelineWritesPerEnvironment(file: string, scanStart: int, tokens: seq<string>,
                                             fetch: string -> Reply<Config>, gh: GitHub, cf: CloudFoundry,
                                             raw: Config, b: Baseline)
    requires fetch(file) == Ok(raw) && raw.scm.Some?
    requires Contains(StripAll(raw.scm.value, tokens), Owner)
    requires NamesReadable(raw)
    requires ReadRepoState(NoAppFields.(configFilename := Some(file), scanStartTime := Some(scanStart),
                                        config := Some(raw.(scm := Some(StripAll(raw.scm.value, tokens))))),
                           StripAll(raw.scm.value, tokens), gh) == Ok(b)
    ensures var r := PipelineRun(file, scanStart, tokens, fetch, gh, cf);
            var entries := raw.environments.value;
            |r.records| <= |entries| &&
            (r.completed ==> |r.records| == |entries|) &&
            (forall k :: 0 <= k < |r.records| ==>
               ResolveEnv(b, entries[k], gh, cf).Emitted? &&
               r.records[k] == Record(b.app, ResolveEnv(b, entries[k], gh, cf).env))
  {
    var config := raw.(scm := Some(StripAll(raw.scm.value, tokens)));
    assert NamesReadable(config);
    OneRecordPerEnvironment(b, raw.environments.value, gh, cf);
  }

  /** The records each declaration writes on its own, in listing order. */
  function PerPipeline(files: seq<string>, scanStart: int, tokens: seq<string>, fetch: string -> Reply<Config>,
                       gh: GitHub, cf: CloudFoundry): (parts: seq<seq<Record>>)
    ensures |parts| == |files|
  {
    seq(|files|, k requires 0 <= k < |files| => PipelineRun(files[k], scanStart, tokens, fetch, gh, cf).records)
  }

  /** `run_check` completes exactly when every declaration completes, and then it has written the
      records of every declaration, in listing order. */
  lemma {:induction false} WholeRunWritesEveryPipeline(files: seq<string>, scanStart: int, tokens: seq<string>,
                                                       fetch: string -> Reply<Config>, gh: GitHub, cf: CloudFoundry)
    ensures var r := FilesRun(files, scanStart, tokens, fetch, gh, cf);
            (r.completed <==> forall k :: 0 <= k < |files| ==> PipelineRun(files[k], scanStart, tokens, fetch, gh, cf).completed) &&
            (r.completed ==> r.records == Flatten(PerPipeline(files, scanStart, tokens, fetch, gh, cf)))
    decreases |files|
  {
    if files != [] {
      var init := files[..|files| - 1];
      var last := files[|files| - 1];
      WholeRunWritesEveryPipeline(init, scanStart, tokens, fetch, gh, cf);
      assert files == init + [last];
      var parts := PerPipeline(files, scanStart, tokens, fetch, gh, cf);
      assert parts == PerPipeline(init, scanStart, tokens, fetch, gh, cf) + [parts[|files| - 1]];
      FlattenAppend(PerPipeline(init, scanStart, tokens, fetch, gh, cf), parts[|files| - 1]);
      var prev := FilesRun(init, scanStart, tokens, fetch, gh, cf);
      if !prev.completed {
        var k :| 0 <= k < |init| && !PipelineRun(init[k], scanStart, tokens, fetch, gh, cf).completed;
        assert files[k] == init[k];
      }
    }
  }

  /** The shape every written environment record has, stage by stage (lines 157-234). */
  ghost predicate Staged(b: Baseline, entry: EnvEntry, e: EnvFields, stage: Stage, gh: GitHub, cf: CloudFoundry) {
    entry.environment.Some? && entry.appType.Some? &&
    e.configEnv == entry.environment && e.cfAppType == entry.appType &&
    match stage
    case WrongType =>
      // type gate: the path is never read
      entry.appType.value != ProcessedType &&
      e == NoEnvFields.(configEnv := e.configEnv, cfAppType := e.cfAppType,
                        logMessage := Some(WrongTypeMessage(entry.appType.value)))
    case InvalidPath =>
      // path gate: no Cloud Foundry lookup
      entry.appType.value == ProcessedType && entry.app.Some? &&
      Occurrences(entry.app.value, "/") != 2 &&
      e == NoEnvFields.(configEnv := e.configEnv, cfAppType := e.cfAppType, cfFullName := entry.app,
                        logMessage := Some(InvalidPathMessage(entry.app.value)))
    case AppNotFound =>
      Looked(b, entry, e, cf) && GuidMissing(e.cfAppGuid) &&
      e.logMessage == Some(AppMessage(e.cfAppName.value, e.cfAppGuid)) &&
      e.cfAppGitBranch.None? && e.cfAppGitCommit.None?
    case MissingGitMetadata =>
      Looked(b, entry, e, cf) && !GuidMissing(e.cfAppGuid) &&
      cf.appEnv(e.cfAppGuid).Ok? &&
      var vars := cf.appEnv(e.cfAppGuid).value;
      // one of the two variables is missing; the branch is kept when it was read
      !("GIT_BRANCH" in vars && "GIT_COMMIT" in vars) &&
      e.cfAppGitBranch == (if "GIT_BRANCH" in vars then Some(vars["GIT_BRANCH"]) else None) &&
      e.cfAppGitCommit.None? && e.cfCommitDate.None? &&
      e.logMessage == Some(NoScmMessage)
    case CommitUnreadable =>
      Deployed(b, entry, e, cf) &&
      CommitBlockFails(b, e.cfAppGitCommit.value, gh) &&
      e.logMessage == Some(CommitMessage(e.cfAppGitCommit.value)) &&
      e.cfCommitDate == (match gh.getCommit(b.scm, e.cfAppGitCommit.value)
                         case Raised => None
                         case Ok(c) => Some(c.date)) &&
      e.driftTimeMergeBase.None?
    case Resolved =>
      Deployed(b, entry, e, cf) && e.logMessage.None? &&
      !CommitBlockFails(b, e.cfAppGitCommit.value, gh) &&
      Drifted(b, e, gh)
  }

  /** Some step of the commit block (lines 207-229) fails: reading the deployed commit, its
      author's login, its commit count, the comparison with the primary head, or the merge base. */
  ghost predicate CommitBlockFails(b: Baseline, sha: string, gh: GitHub) {
    match gh.getCommit(b.scm, sha)
    case Raised => true
    case Ok(c) =>
      c.authorLogin.None? || gh.commitCount(b.scm, sha).Raised? ||
      match gh.compare(b.scm, b.headSha, sha)
      case Raised => true
      case Ok(cmp) => gh.getCommit(b.scm, cmp.mergeBaseSha).Raised?
  }

  /** A written record has exactly one stage: the shapes of two different stages never hold of
      the same record. */
  lemma StagesAreExclusive(b: Baseline, entry: EnvEntry, e: EnvFields, s1: Stage, s2: Stage, gh: GitHub, cf: CloudFoundry)
    requires Staged(b, entry, e, s1, gh, cf) && Staged(b, entry, e, s2, gh, cf)
    ensures s1 == s2
  {
  }

  /** The three Cloud Foundry names are the path's segments 0, 1 and 2, and each guid is the last
      match its lookup returned (lines 178-187). */
  ghost predicate Looked(b: Baseline, entry: EnvEntry, e: EnvFields, cf: CloudFoundry) {
    entry.appType == Some(ProcessedType) && entry.app.Some? &&
    var path := entry.app.value;
    Occurrences(path, "/") == 2 && |Split(path, '/')| == 3 &&
    var parts := Split(path, '/');
    e.cfFullName == Some(path) &&
    e.cfOrgName == Some(parts[0]) && e.cfSpaceName == Some(parts[1]) && e.cfAppName == Some(parts[2]) &&
    cf.orgGuids(parts[0]).Ok? && e.cfOrgGuid == LastGuid(None, cf.orgGuids(parts[0]).value) &&
    cf.spaceGuids(parts[1], e.cfOrgGuid).Ok? && e.cfSpaceGuid == LastGuid(None, cf.spaceGuids(parts[1], e.cfOrgGuid).value) &&
    cf.appGuids(parts[2], e.cfSpaceGuid, e.cfOrgGuid).Ok? &&
    e.cfAppGuid == LastGuid(None, cf.appGuids(parts[2], e.cfSpaceGuid, e.cfOrgGuid).value)
  }

  /** The app was found and both `GIT_BRANCH` and `GIT_COMMIT` were read (lines 196-205). */
  ghost predicate Deployed(b: Baseline, entry: EnvEntry, e: EnvFields, cf: CloudFoundry) {
    Looked(b, entry, e, cf) && !GuidMissing(e.cfAppGuid) &&
    cf.appEnv(e.cfAppGuid).Ok? &&
    var vars := cf.appEnv(e.cfAppGuid).value;
    "GIT_BRANCH" in vars && "GIT_COMMIT" in vars &&
    e.cfAppGitBranch == Some(vars["GIT_BRANCH"]) && e.cfAppGitCommit == Some(vars["GIT_COMMIT"])
  }

  /** Lines 207-228: the deployed commit and the merge base are compared with the primary head; the
      comparison takes the head as base and the deployed commit as head, and both drifts are signed
      differences from the head commit's date. */
  ghost predicate Drifted(b: Baseline, e: EnvFields, gh: GitHub) {
    e.cfAppGitCommit.Some? &&
    var sha := e.cfAppGitCommit.value;
    gh.getCommit(b.scm, sha).Ok? &&
    var deployed := gh.getCommit(b.scm, sha).value;
    gh.compare(b.scm, b.headSha, sha).Ok? &&
    var cmp := gh.compare(b.scm, b.headSha, sha).value;
    gh.getCommit(b.scm, cmp.mergeBaseSha).Ok? &&
    var mergeBase := gh.getCommit(b.scm, cmp.mergeBaseSha).value;
    e.cfCommitDate == Some(deployed.date) && deployed.authorLogin.Some? &&
    e.cfCommitAuthor == deployed.authorLogin &&
    gh.commitCount(b.scm, sha).Ok? && e.cfCommitCount == Some(gh.commitCount(b.scm, sha).value) &&
    e.driftTimeSimple == Some(deployed.date - b.headDate) &&
    e.gitCompareAheadBy == Some(cmp.aheadBy) && e.gitCompareBehindBy == Some(cmp.behindBy) &&
    e.gitCompareMergeBaseCommit == Some(cmp.mergeBaseSha) &&
    e.gitCompareMergeBaseCommitDate == Some(mergeBase.date) &&
    e.driftTimeMergeBase == Some(mergeBase.date - b.headDate)
  }

  lemma ReadCommitStaged(b: Baseline, entry: EnvEntry, e: EnvFields, sha: string, gh: GitHub, cf: CloudFoundry)
    requires Deployed(b, entry, e, cf) && e.cfAppGitCommit == Some(sha)
    requires e.configEnv == entry.environment && e.cfAppType == entry.appType && entry.environment.Some?
    requires e.logMessage.None? && e.cfCommitDate.None? && e.driftTimeMergeBase.None?
    ensures var r := ReadCommit(b, e, sha, gh);
            r.Emitted? && (r.stage == CommitUnreadable || r.stage == Resolved) &&
            (r.stage == Resolved <==> !CommitBlockFails(b, sha, gh)) &&
            Staged(b, entry, r.env, r.stage, gh, cf)
  {
    match gh.getCommit(b.scm, sha)
    case Raised =>
    case Ok(c) =>
      if c.authorLogin.Some? && gh.commitCount(b.scm, sha).Ok? {
        match gh.compare(b.scm, b.headSha, sha)
        case Raised =>
        case Ok(cmp) =>
          match gh.getCommit(b.scm, cmp.mergeBaseSha)
          case Raised =>
          case Ok(mergeBase) =>
            assert Drifted(b, ReadCommit(b, e, sha, gh).env, gh);
      }
  }

  lemma ReadDeployedRevisionStaged(b: Baseline, entry: EnvEntry, e: EnvFields, gh: GitHub, cf: CloudFoundry)
    requires Looked(b, entry, e, cf) && !GuidMissing(e.cfAppGuid)
    requires e.configEnv == entry.environment && e.cfAppType == entry.appType && entry.environment.Some?
    requires e.logMessage.None? && e.cfAppGitBranch.None? && e.cfAppGitCommit.None?
    requires e.cfCommitDate.None? && e.driftTimeMergeBase.None?
    ensures var r := ReadDeployedRevision(b, e, gh, cf);
            r.Emitted? ==> Staged(b, entry, r.env, r.stage, gh, cf)
  {
    match cf.appEnv(e.cfAppGuid)
    case Raised =>
    case Ok(vars) =>
      if "GIT_BRANCH" in vars && "GIT_COMMIT" in vars {
        var sha := vars["GIT_COMMIT"];
        ReadCommitStaged(b, entry, e.(cfAppGitBranch := Some(vars["GIT_BRANCH"]), cfAppGitCommit := Some(sha)), sha, gh, cf);
      }
  }

  lemma LookupAppStaged(b: Baseline, entry: EnvEntry, e: EnvFields, gh: GitHub, cf: CloudFoundry)
    requires entry.environment.Some? && entry.appType == Some(ProcessedType) && entry.app.Some?
    requires Occurrences(entry.app.value, "/") == 2 && |Split(entry.app.value, '/')| == 3
    requires e == NoEnvFields.(configEnv := entry.environment, cfAppType := entry.appType, cfFullName := entry.app)
    ensures var r := LookupApp(b, e, Split(entry.app.value, '/'), gh, cf);
            r.Emitted? ==> Staged(b, entry, r.env, r.stage, gh, cf)
  {
    var parts := Split(entry.app.value, '/');
    match cf.orgGuids(parts[0])
    case Raised =>
    case Ok(orgs) =>
      var e1 := e.(cfOrgName := Some(parts[0]), cfOrgGuid := LastGuid(None, orgs), cfSpaceName := Some(parts[1]));
      match cf.spaceGuids(parts[1], e1.cfOrgGuid)
      case Raised =>
      case Ok(spaces) =>
        var e2 := e1.(cfSpaceGuid := LastGuid(None, spaces), cfAppName := Some(parts[2]));
        match cf.appGuids(parts[2], e2.cfSpaceGuid, e2.cfOrgGuid)
        case Raised =>
        case Ok(apps) =>
          var e3 := e2.(cfAppGuid := LastGuid(None, apps));
          assert Looked(b, entry, e3, cf);
          if !GuidMissing(e3.cfAppGuid) {
            ReadDeployedRevisionStaged(b, entry, e3, gh, cf);
          }
  }

  /** Stage order (lines 157-237): every record an environment writes has the shape of the stage it
      stopped at, with the message of that stage and the fields assigned before it. */
  lemma ResolveEnvStaged(b: Baseline, entry: EnvEntry, gh: GitHub, cf: CloudFoundry)
    ensures var r := ResolveEnv(b, entry, gh, cf);
            r.Emitted? ==> Staged(b, entry, r.env, r.stage, gh, cf)
  {
    if entry.environment.Some? && entry.appType == Some(ProcessedType) && entry.app.Some? &&
       Occurrences(entry.app.value, "/") == 2 {
      SplitPieces(entry.app.value, '/');
      LookupAppStaged(b, entry, NoEnvFields.(configEnv := entry.environment, cfAppType := entry.appType,
                                             cfFullName := entry.app), gh, cf);
    }
  }

  /** Lines 199-205: when only `GIT_COMMIT` is missing, the record keeps the deployed branch. */
  lemma MissingCommitKeepsBranch(b: Baseline, e: EnvFields, gh: GitHub, cf: CloudFoundry, vars: map<string, string>)
    requires cf.appEnv(e.cfAppGuid) == Ok(vars)
    requires "GIT_BRANCH" in vars && "GIT_COMMIT" !in vars
    ensures ReadDeployedRevision(b, e, gh, cf) ==
            Emitted(e.(cfAppGitBranch := Some(vars["GIT_BRANCH"]), logMessage := Some(NoScmMessage)), MissingGitMetadata)
  {
  }

  /** Lines 216-234: when the comparison fails, the record keeps the simple drift computed before it. */
  lemma CompareFailureKeepsSimpleDrift(b: Baseline, e: EnvFields, sha: string, gh: GitHub, c: Commit, count: nat)
    requires gh.getCommit(b.scm, sha) == Ok(c) && c.authorLogin.Some?
    requires gh.commitCount(b.scm, sha) == Ok(count)
    requires gh.compare(b.scm, b.headSha, sha).Raised?
    ensures var r := ReadCommit(b, e, sha, gh);
            r.stage == CommitUnreadable &&
            r.env.driftTimeSimple == Some(c.date - b.headDate) &&
            r.env.gitCompareAheadBy == e.gitCompareAheadBy &&
            r.env.logMessage == Some(CommitMessage(sha))
  {
  }

  /** Lines 106-151: the baseline is the head of the primary branch, and the head's author and
      committer fall back to "N/A" without stopping the read. */
  lemma BaselineIsPrimaryHead(app: AppFields, scm: string, gh: GitHub, meta: RepoMeta, branches: seq<string>,
                              sha: string, count: nat, head: Commit)
    requires gh.getRepo(scm) == Ok(meta) && gh.branchNames(scm) == Ok(branches)
    requires gh.branchHead(scm, PrimaryBranch(meta.defaultBranch, branches)) == Ok(sha)
    requires gh.commitCount(scm, PrimaryBranch(meta.defaultBranch, branches)) == Ok(count)
    requires gh.getCommit(scm, sha) == Ok(head)
    ensures var r := ReadRepoState(app, scm, gh);
            r.Ok? && r.value.headSha == sha && r.value.headDate == head.date && r.value.scm == scm &&
            r.value.app.scmRepoPrimaryBranchName == Some(PrimaryBranch(meta.defaultBranch, branches)) &&
            r.value.app.scmRepoDefaultBranchName == Some(meta.defaultBranch) &&
            (head.authorLogin.None? ==> r.value.app.scmRepoPrimaryBranchHeadCommitAuthor == Some("N/A")) &&
            (head.committerLogin.None? ==> r.value.app.scmRepoPrimaryBranchHeadCommitCommitter == Some("N/A")) &&
            r.value.app.configFilename == app.configFilename && r.value.app.config == app.config
  {
  }

  /** Lines 115-121: the primary branch is "main" when present, else "master" when present, else the
      default branch; it is always the default branch or one of the repository's branches. */
  lemma PrimaryBranchPreference(defaultBranch: string, branches: seq<string>)
    ensures var p := PrimaryBranch(defaultBranch, branches);
            (p in branches || p == defaultBranch) &&
            (p != "main" ==> "main" !in branches) &&
            ("main" !in branches && "master" in branches ==> p == "master") &&
            (p != "main" && p != "master" ==> p == defaultBranch && "master" !in branches)
  {
  }

  /** Line 95: the gate is a substring test, so a declaration whose cleaned `scm` has "uktrade"
      anywhere, not only at its start, is not rejected: every record it writes belongs to one of
      its environments, and none is the "Not a UKTRADE repo" record. */
  lemma GateIsSubstringTest(file: string, scanStart: int, tokens: seq<string>, fetch: string -> Reply<Config>,
                            gh: GitHub, cf: CloudFoundry, raw: Config, before: string, after: string)
    requires fetch(file) == Ok(raw) && raw.scm.Some?
    requires StripAll(raw.scm.value, tokens) == before + Owner + after
    ensures var r := PipelineRun(file, scanStart, tokens, fetch, gh, cf);
            forall k :: 0 <= k < |r.records| ==>
              r.records[k].env.configEnv.Some? &&
              r.records[k].env.logMessage != Some(NotOwnerMessage(StripAll(raw.scm.value, tokens)))
  {
    var scm := StripAll(raw.scm.value, tokens);
    ContainsInfix(before, Owner, after);
    var config := raw.(scm := Some(scm));
    var app := NoAppFields.(configFilename := Some(file), scanStartTime := Some(scanStart), config := Some(config));
    if NamesReadable(config) && ReadRepoState(app, scm, gh).Ok? {
      var b := ReadRepoState(app, scm, gh).value;
      var entries := raw.environments.value;
      OneRecordPerEnvironment(b, entries, gh, cf);
      var r := EnvsRun(b, entries, gh, cf);
      forall k | 0 <= k < |r.records|
        ensures r.records[k].env.configEnv.Some? &&
                r.records[k].env.logMessage != Some(NotOwnerMessage(scm))
      {
        ResolveEnvStaged(b, entries[k], gh, cf);
        NoStageMessageIsNotOwner(b, entries[k], ResolveEnv(b, entries[k], gh, cf).env,
                                 ResolveEnv(b, entries[k], gh, cf).stage, scm, gh, cf);
      }
    }
  }

  /** No environment stage writes the rejection message. */
  lemma NoStageMessageIsNotOwner(b: Baseline, entry: EnvEntry, e: EnvFields, stage: Stage, scm: string,
                                 gh: GitHub, cf: CloudFoundry)
    requires Staged(b, entry, e, stage, gh, cf)
    ensures e.logMessage != Some(NotOwnerMessage(scm))
  {
    match stage
    case WrongType => MessagesDiffer(scm, entry.appType.value, "", "", None, "");
    case InvalidPath => MessagesDiffer(scm, "", entry.app.value, "", None, "");
    case AppNotFound => MessagesDiffer(scm, "", "", e.cfAppName.value, e.cfAppGuid, "");
    case MissingGitMetadata => MessagesDiffer(scm, "", "", "", None, "");
    case CommitUnreadable => MessagesDiffer(scm, "", "", "", None, e.cfAppGitCommit.value);
    case Resolved =>
  }

  /** The rejection message differs from every environment message. */
  lemma MessagesDiffer(scm: string, appType: string, path: string, appName: string, guid: Option<string>, sha: string)
    ensures NotOwnerMessage(scm) != WrongTypeMessage(appType)
    ensures NotOwnerMessage(scm) != InvalidPathMessage(path)
    ensures NotOwnerMessage(scm) != AppMessage(appName, guid)
    ensures NotOwnerMessage(scm) != NoScmMessage
    ensures NotOwnerMessage(scm) != CommitMessage(sha)
  {
    assert NotOwnerMessage(scm)[0] == 'N' && NotOwnerMessage(scm)[18] == ':';
    assert WrongTypeMessage(appType)[0] == 'A';
    assert InvalidPathMessage(path)[0] == 'I';
    assert AppMessage(appName, guid)[0] == 'C';
    assert NoScmMessage[18] == 'o';
    assert CommitMessage(sha)[0] == 'C';
  }
}
