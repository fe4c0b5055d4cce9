/** `run_check` as the checker runs it: a fresh `PipelineApp` per declaration file and a fresh
    `PipelineEnv` per outcome, fields assigned one at a time, and one `write_record` per outcome.
    Each method is proved to write exactly the records its specification in `DriftCheck` gives. */
module Check {
  import opened Wrappers
  import opened Text
  import opened Gateways
  import opened PipelineConfig
  import opened Records
  import opened DriftCheck

  /** Lines 116-123: start from the default branch, then overwrite with "master" and then with
      "main", each only if the repository has that branch. */
  method SelectPrimaryBranch(defaultBranch: string, branches: seq<string>) returns (primary: string)
    ensures primary == PrimaryBranch(defaultBranch, branches)
  {
    primary := defaultBranch;
    var overrides := ["master", "main"];
    for i := 0 to |overrides|
      invariant i == 0 ==> primary == defaultBranch
      invariant i == 1 ==> primary == (if "master" in branches then "master" else defaultBranch)
      invariant i == 2 ==> primary == PrimaryBranch(defaultBranch, branches)
    {
      if overrides[i] in branches {
        primary := overrides[i];
      }
    }
  }

  /** Lines 157-237: resolve one environment on a fresh row; `None` when a call outside any `try`
      raised, which ends the run. */
  method ResolveEnvironment(app: PipelineApp, b: Baseline, entry: EnvEntry, gh: GitHub, cf: CloudFoundry)
    returns (written: Option<Record>)
    requires app.Fields() == b.app
    ensures written == match ResolveEnv(b, entry, gh, cf)
                       case Aborted => None
                       case Emitted(e, _) => Some(Record(b.app, e))
  {
    var env := new PipelineEnv();
    if entry.environment.None? || entry.appType.None? {
      return None;
    }
    env.SetConfigEnv(entry.environment.value);
    var appType := entry.appType.value;
    env.SetCfAppType(appType);
    if appType != ProcessedType {
      env.SetLogMessage(WrongTypeMessage(appType));
      return Some(WriteRecord(app, env));
    }
    if entry.app.None? {
      return None;
    }
    var path := entry.app.value;
    env.SetCfFullName(path);
    if Occurrences(path, "/") != 2 {
      env.SetLogMessage(InvalidPathMessage(path));
      return Some(WriteRecord(app, env));
    }
    SplitPieces(path, '/');
    var aborted := LookupAppInto(env, b, Split(path, '/'), gh, cf);
    if aborted {
      return None;
    }
    written := Some(WriteRecord(app, env));
  }

  /** Lines 178-237 on the row `env`: `true` when a call outside any `try` raised; otherwise the row
      is complete and ready for `write_record`. */
  method LookupAppInto(env: PipelineEnv, b: Baseline, parts: seq<string>, gh: GitHub, cf: CloudFoundry)
    returns (aborted: bool)
    requires |parts| == 3
    modifies env
    ensures var r := LookupApp(b, old(env.Fields()), parts, gh, cf);
            if aborted then r.Aborted? else r.Emitted? && r.env == env.Fields()
  {
    env.SetCfOrgName(parts[0]);
    var orgs := cf.orgGuids(parts[0]);
    if orgs.Raised? {
      return true;
    }
    AssignEachGuid(env, CfOrgGuid, orgs.value);
    env.SetCfSpaceName(parts[1]);
    var spaces := cf.spaceGuids(parts[1], env.cfOrgGuid);
    if spaces.Raised? {
      return true;
    }
    AssignEachGuid(env, CfSpaceGuid, spaces.value);
    env.SetCfAppName(parts[2]);
    var apps := cf.appGuids(parts[2], env.cfSpaceGuid, env.cfOrgGuid);
    if apps.Raised? {
      return true;
    }
    AssignEachGuid(env, CfAppGuid, apps.value);
    if GuidMissing(env.cfAppGuid) {
      env.SetLogMessage(AppMessage(parts[2], env.cfAppGuid));
      return false;
    }
    aborted := ReadDeployedRevisionInto(env, b, gh, cf);
  }

  /** Which guid field a lookup loop assigns. */
  datatype GuidField = CfOrgGuid | CfSpaceGuid | CfAppGuid

  function WithGuid(e: EnvFields, field: GuidField, guid: Option<string>): EnvFields {
    match field
    case CfOrgGuid => e.(cfOrgGuid := guid)
    case CfSpaceGuid => e.(cfSpaceGuid := guid)
    case CfAppGuid => e.(cfAppGuid := guid)
  }

  function GuidOf(e: EnvFields, field: GuidField): Option<string> {
    match field
    case CfOrgGuid => e.cfOrgGuid
    case CfSpaceGuid => e.cfSpaceGuid
    case CfAppGuid => e.cfAppGuid
  }

  /** Lines 180-187: `for match in listing: set_log_attribute(field, match['guid'])`. The last match
      wins; an empty listing leaves the field as it was. */
  method AssignEachGuid(env: PipelineEnv, field: GuidField, guids: seq<string>)
    modifies env
    ensures env.Fields() == WithGuid(old(env.Fields()), field, LastGuid(GuidOf(old(env.Fields()), field), guids))
  {
    ghost var before := env.Fields();
    for i := 0 to |guids|
      invariant env.Fields() == WithGuid(before, field, LastGuid(GuidOf(before, field), guids[..i]))
    {
      match field
      case CfOrgGuid => env.SetCfOrgGuid(guids[i]);
      case CfSpaceGuid => env.SetCfSpaceGuid(guids[i]);
      case CfAppGuid => env.SetCfAppGuid(guids[i]);
    }
    assert guids[..|guids|] == guids;
  }

  /** Lines 196-237 on the row `env`: `true` when `get_env` raised. */
  method ReadDeployedRevisionInto(env: PipelineEnv, b: Baseline, gh: GitHub, cf: CloudFoundry) returns (aborted: bool)
    modifies env
    ensures var r := ReadDeployedRevision(b, old(env.Fields()), gh, cf);
            if aborted then r.Aborted? else r.Emitted? && r.env == env.Fields()
  {
    var vars := cf.appEnv(env.cfAppGuid);
    if vars.Raised? {
      return true;
    }
    aborted := false;
    if "GIT_BRANCH" !in vars.value {
      env.SetLogMessage(NoScmMessage);
      return;
    }
    env.SetCfAppGitBranch(vars.value["GIT_BRANCH"]);
    if "GIT_COMMIT" !in vars.value {
      env.SetLogMessage(NoScmMessage);
      return;
    }
    var sha := vars.value["GIT_COMMIT"];
    env.SetCfAppGitCommit(sha);
    var ok := ReadCommitInto(env, b, sha, gh);
    if !ok {
      env.SetLogMessage(CommitMessage(sha));
    }
  }

  /** The `try` block of lines 207-229 on the row `env`; `false` when a step in it raised, with the
      fields assigned before that step kept. */
  method ReadCommitInto(env: PipelineEnv, b: Baseline, sha: string, gh: GitHub) returns (ok: bool)
    modifies env
    ensures var r := ReadCommit(b, old(env.Fields()), sha, gh);
            if ok then r == Emitted(env.Fields(), Resolved) else r == Unreadable(env.Fields(), sha)
  {
    var commit := gh.getCommit(b.scm, sha);
    if commit.Raised? {
      return false;
    }
    env.SetCfCommitDate(commit.value.date);
    if commit.value.authorLogin.None? {
      return false;
    }
    env.SetCfCommitAuthor(commit.value.authorLogin.value);
    var count := gh.commitCount(b.scm, sha);
    if count.Raised? {
      return false;
    }
    env.SetCfCommitCount(count.value);
    env.SetDriftTimeSimple(env.cfCommitDate.value - b.headDate);
    var cmp := gh.compare(b.scm, b.headSha, sha);
    if cmp.Raised? {
      return false;
    }
    env.SetGitCompareAheadBy(cmp.value.aheadBy);
    env.SetGitCompareBehindBy(cmp.value.behindBy);
    env.SetGitCompareMergeBaseCommit(cmp.value.mergeBaseSha);
    var mergeBase := gh.getCommit(b.scm, env.gitCompareMergeBaseCommit.value);
    if mergeBase.Raised? {
      return false;
    }
    env.SetGitCompareMergeBaseCommitDate(mergeBase.value.date);
    env.SetDriftTimeMergeBase(env.gitCompareMergeBaseCommitDate.value - b.headDate);
    ok := true;
  }

  /** Lines 78-239: one declaration file. */
  method ProcessPipeline(file: string, scanStart: int, tokens: seq<string>, fetch: string -> Reply<Config>,
                         gh: GitHub, cf: CloudFoundry)
    returns (records: seq<Record>, completed: bool)
    ensures Run(records, completed) == PipelineRun(file, scanStart, tokens, fetch, gh, cf)
  {
    var app := new PipelineApp();
    app.SetConfigFilename(file);
    app.SetScanStartTime(scanStart);
    var raw := fetch(file);
    if raw.Raised? {
      return [], false;
    }
    var config := GetAppConfigYaml(raw.value, tokens);
    if config.Raised? {
      return [], false;
    }
    app.SetConfig(config.value);
    if config.value.scm.None? {
      return [], false;
    }
    var scm := config.value.scm.value;
    if !Contains(scm, Owner) {
      var env := new PipelineEnv();
      env.SetLogMessage(NotOwnerMessage(scm));
      return [WriteRecord(app, env)], true;
    }
    var names := EnvironmentNames(config.value);
    if names.Raised? {
      return [], false;
    }

    var baseline := ReadRepoStateInto(app, scm, gh);
    if baseline.Raised? {
      return [], false;
    }
    records, completed := ProcessEnvironments(app, baseline.value, config.value.environments.value, gh, cf);
  }

  /** Lines 115-151 on the application row `app`: the repository's metadata, its primary branch and
      the head commit of that branch, which is the baseline every environment is compared with. */
  method ReadRepoStateInto(app: PipelineApp, scm: string, gh: GitHub) returns (baseline: Reply<Baseline>)
    modifies app
    ensures baseline == ReadRepoState(old(app.Fields()), scm, gh)
    ensures baseline.Ok? ==> app.Fields() == baseline.value.app
  {
    var meta := gh.getRepo(scm);
    if meta.Raised? {
      return Raised;
    }
    app.SetScmRepoName(meta.value.name);
    app.SetScmRepoId(meta.value.id);
    app.SetScmRepoPrivate(meta.value.isPrivate);
    app.SetScmRepoArchived(meta.value.archived);
    var branches := gh.branchNames(scm);
    if branches.Raised? {
      return Raised;
    }
    app.SetScmRepoBranchList(branches.value);
    app.SetScmRepoDefaultBranchName(meta.value.defaultBranch);
    app.SetScmRepoPrimaryBranchName(meta.value.defaultBranch);
    var primary := SelectPrimaryBranch(meta.value.defaultBranch, branches.value);
    app.SetScmRepoPrimaryBranchName(primary);
    var head := gh.branchHead(scm, primary);
    if head.Raised? {
      return Raised;
    }
    app.SetScmRepoPrimaryBranchHeadCommitSha(head.value);
    var count := gh.commitCount(scm, primary);
    if count.Raised? {
      return Raised;
    }
    app.SetScmRepoPrimaryBranchHeadCommitCount(count.value);
    var commit := gh.getCommit(scm, head.value);
    if commit.Raised? {
      return Raised;
    }
    app.SetScmRepoPrimaryBranchHeadCommitDate(commit.value.date);
    app.SetScmRepoPrimaryBranchHeadCommitAuthor(LoginOrNA(commit.value.authorLogin));
    app.SetScmRepoPrimaryBranchHeadCommitCommitter(LoginOrNA(commit.value.committerLogin));
    baseline := Ok(Baseline(app.Fields(), scm, head.value, commit.value.date));
  }

  /** Lines 157-237: the environments of one declaration in order, each row written as it is
      resolved, until a call outside any `try` raises. */
  method ProcessEnvironments(app: PipelineApp, b: Baseline, entries: seq<EnvEntry>, gh: GitHub, cf: CloudFoundry)
    returns (records: seq<Record>, completed: bool)
    requires app.Fields() == b.app
    ensures Run(records, completed) == EnvsRun(b, entries, gh, cf)
  {
    records, completed := [], true;
    var i := 0;
    while i < |entries| && completed
      invariant 0 <= i <= |entries|
      invariant Run(records, completed) == EnvsRun(b, entries[..i], gh, cf)
    {
      assert entries[..i + 1][..i] == entries[..i];
      var written := ResolveEnvironment(app, b, entries[i], gh, cf);
      if written.None? {
        completed := false;
      } else {
        records := records + [written.value];
      }
      i := i + 1;
    }
    EnvsRunStopsAtAbort(b, entries, i, gh, cf);
  }

  /** Once the environment loop has aborted, the later entries change nothing. */
  lemma {:induction false} EnvsRunStopsAtAbort(b: Baseline, entries: seq<EnvEntry>, n: nat, gh: GitHub, cf: CloudFoundry)
    requires n <= |entries|
    requires n < |entries| ==> !EnvsRun(b, entries[..n], gh, cf).completed
    ensures EnvsRun(b, entries, gh, cf) == EnvsRun(b, entries[..n], gh, cf)
    decreases |entries| - n
  {
    if n == |entries| {
      assert entries[..n] == entries;
    } else {
      assert entries[..n + 1][..n] == entries[..n];
      EnvsRunStopsAtAbort(b, entries, n + 1, gh, cf);
    }
  }

  /** Once the pipeline loop has aborted, the later files change nothing. */
  lemma {:induction false} FilesRunStopsAtAbort(files: seq<string>, n: nat, scanStart: int, tokens: seq<string>,
                                                fetch: string -> Reply<Config>, gh: GitHub, cf: CloudFoundry)
    requires n <= |files|
    requires n < |files| ==> !FilesRun(files[..n], scanStart, tokens, fetch, gh, cf).completed
    ensures FilesRun(files, scanStart, tokens, fetch, gh, cf) == FilesRun(files[..n], scanStart, tokens, fetch, gh, cf)
    decreases |files| - n
  {
    if n == |files| {
      assert files[..n] == files;
    } else {
      assert files[..n + 1][..n] == files[..n];
      FilesRunStopsAtAbort(files, n + 1, scanStart, tokens, fetch, gh, cf);
    }
  }

  /** `run_check`: every declaration file in listing order, until a call outside any `try` raises. */
  method RunCheck(listing: seq<string>, scanStart: int, tokens: seq<string>, fetch: string -> Reply<Config>,
                  gh: GitHub, cf: CloudFoundry)
    returns (records: seq<Record>, completed: bool)
    ensures Run(records, completed) == CheckRun(listing, scanStart, tokens, fetch, gh, cf)
  {
    var files := GetPipelineConfigs(listing);
    records, completed := [], true;
    var i := 0;
    while i < |files| && completed
      invariant 0 <= i <= |files|
      invariant Run(records, completed) == FilesRun(files[..i], scanStart, tokens, fetch, gh, cf)
    {
      assert files[..i + 1][..i] == files[..i];
      var pipelineRecords, pipelineCompleted := ProcessPipeline(files[i], scanStart, tokens, fetch, gh, cf);
      records := records + pipelineRecords;
      completed := pipelineCompleted;
      i := i + 1;
    }
    FilesRunStopsAtAbort(files, i, scanStart, tokens, fetch, gh, cf);
  }
}
