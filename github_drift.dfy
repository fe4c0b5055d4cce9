/** What `run_github` (checker/github.py), the older variant of the drift check, reports, as
    functions: it writes no records, so its outcome is the sequence of reports it logs, one for the
    head of each accepted pipeline's default branch and one per environment. */
module GithubDrift {
  import opened Wrappers
  import opened Text
  import opened Gateways
  import opened PipelineConfig
  import opened DriftCheck
  import opened Sequences

  /** What `run_github` reports. */
  datatype Report =
    | DefaultHead(scm: string, branch: string, sha: string, commitCount: nat, date: int, author: string)
    | InvalidAppPath(path: string)
    | AppUnreadable(guid: Option<string>)
    | NoScmMetadata
    | NotOwner(scm: string)
    | Drift(branch: string, commit: string, commitDate: int, author: string, drift: int, days: int)

  /** `timedelta.days`: timestamps are seconds, and a drift is logged as whole days. */
  const SecondsPerDay := 86400

  /** One environment either reports and lets the loop go on, or halts the run. */
  datatype Outcome = Reported(report: Report) | Halted

  /** The reports logged, and whether processing went to the end. */
  datatype Trace = Trace(reports: seq<Report>, completed: bool)

  /** The default branch head every environment is compared with. */
  datatype Head = Head(scm: string, date: int)

  /** Lines 26-38: the `guid` of the first match, or `None` when there is none. */
  function FirstGuid(guids: seq<string>): (guid: Option<string>)
    ensures guid.None? <==> guids == []
    ensures guid.Some? ==> guid.value == guids[0] && guid.value in guids
  {
    if guids == [] then None else Some(guids[0])
  }

  /** `get_cf_org_guid`: the first organization named `orgName`; a failing listing raises. */
  function GetCfOrgGuid(cf: CloudFoundry, orgName: string): (r: Reply<Option<string>>)
    ensures r.Raised? <==> cf.orgGuids(orgName).Raised?
    ensures r.Ok? ==> r.value == FirstGuid(cf.orgGuids(orgName).value)
  {
    match cf.orgGuids(orgName)
    case Raised => Raised
    case Ok(guids) => Ok(FirstGuid(guids))
  }

  /** `get_cf_space_guid`: the first space named `spaceName` in the organization. */
  function GetCfSpaceGuid(cf: CloudFoundry, orgGuid: Option<string>, spaceName: string): (r: Reply<Option<string>>)
    ensures r.Raised? <==> cf.spaceGuids(spaceName, orgGuid).Raised?
    ensures r.Ok? ==> r.value == FirstGuid(cf.spaceGuids(spaceName, orgGuid).value)
  {
    match cf.spaceGuids(spaceName, orgGuid)
    case Raised => Raised
    case Ok(guids) => Ok(FirstGuid(guids))
  }

  /** `get_cf_app_guid`: the first app named `appName` in the space and organization. */
  function GetCfAppGuid(cf: CloudFoundry, orgGuid: Option<string>, spaceGuid: Option<string>, appName: string)
    : (r: Reply<Option<string>>)
    ensures r.Raised? <==> cf.appGuids(appName, spaceGuid, orgGuid).Raised?
    ensures r.Ok? ==> r.value == FirstGuid(cf.appGuids(appName, spaceGuid, orgGuid).value)
  {
    match cf.appGuids(appName, spaceGuid, orgGuid)
    case Raised => Raised
    case Ok(guids) => Ok(FirstGuid(guids))
  }

  /** Lines 99-138: one environment. Only `apps.get` and the reading of `GIT_BRANCH`/`GIT_COMMIT`
      are inside a `try`; a missing `app` key, a failing Cloud Foundry listing, `get_env`, the
      deployed commit's `get_commit` and an unreadable author of that commit halt the run. */
  function LegacyEnv(h: Head, entry: EnvEntry, gh: GitHub, cf: CloudFoundry): Outcome {
    match entry.app
    case None => Halted
    case Some(path) =>
      if Occurrences(path, "/") != 2 then Reported(InvalidAppPath(path))
      else
        SplitPieces(path, '/');
        var parts := Split(path, '/');
        match GetCfOrgGuid(cf, parts[0])
        case Raised => Halted
        case Ok(org) =>
          match GetCfSpaceGuid(cf, org, parts[1])
          case Raised => Halted
          case Ok(space) =>
            match GetCfAppGuid(cf, org, space, parts[2])
            case Raised => Halted
            case Ok(app) =>
              if !cf.appReadable(app) then Reported(AppUnreadable(app))
              else
                match cf.appEnv(app)
                case Raised => Halted
                case Ok(vars) =>
                  if "GIT_BRANCH" !in vars || "GIT_COMMIT" !in vars then Reported(NoScmMetadata)
                  else
                    var sha := vars["GIT_COMMIT"];
                    match gh.getCommit(h.scm, sha)
                    case Raised => Halted
                    case Ok(c) =>
                      match c.authorLogin
                      case None => Halted
                      case Some(author) => Reported(Drift(vars["GIT_BRANCH"], sha, c.date, author, c.date - h.date, (c.date - h.date) / SecondsPerDay))
  }

  /** The environment loop over the first `|entries|` entries. */
  function LegacyEnvsRun(h: Head, entries: seq<EnvEntry>, gh: GitHub, cf: CloudFoundry): Trace
    decreases |entries|
  {
    if entries == [] then Trace([], true)
    else
      var prev := LegacyEnvsRun(h, entries[..|entries| - 1], gh, cf);
      if !prev.completed then prev
      else
        match LegacyEnv(h, entries[|entries| - 1], gh, cf)
        case Halted => Trace(prev.reports, false)
        case Reported(rep) => Trace(prev.reports + [rep], true)
  }

  /** Lines 63-96: the default branch's head commit; every call is outside any `try` except the
      author's login, which falls back to "N/A". */
  function ReadDefaultHead(scm: string, gh: GitHub): Reply<(Report, Head)> {
    match gh.getRepo(scm)
    case Raised => Raised
    case Ok(meta) =>
      var branch := meta.defaultBranch;
      match gh.branchHead(scm, branch)
      case Raised => Raised
      case Ok(sha) =>
        match gh.commitCount(scm, branch)
        case Raised => Raised
        case Ok(count) =>
          match gh.getCommit(scm, sha)
          case Raised => Raised
          case Ok(head) => Ok((DefaultHead(scm, branch, sha, count, head.date, LoginOrNA(head.authorLogin)), Head(scm, head.date)))
  }

  /** Lines 61-140: one pipeline declaration file. A missing `scm` raises whatever the clean-up
      list; the environment names are read (line 77) before the repository. */
  function LegacyPipeline(file: string, tokens: seq<string>, fetch: string -> Reply<Config>,
                          gh: GitHub, cf: CloudFoundry): Trace
  {
    match fetch(file)
    case Raised => Trace([], false)
    case Ok(config) =>
      match config.scm
      case None => Trace([], false)
      case Some(raw) =>
        var scm := StripAll(raw, tokens);
        if !Contains(scm, Owner) then Trace([NotOwner(scm)], true)
        else if !NamesReadable(config) then Trace([], false)
        else
          match ReadDefaultHead(scm, gh)
          case Raised => Trace([], false)
          case Ok((report, h)) =>
            var envs := LegacyEnvsRun(h, config.environments.value, gh, cf);
            Trace([report] + envs.reports, envs.completed)
  }

  /** The pipeline loop over the first `|files|` declaration files. */
  function LegacyFilesRun(files: seq<string>, tokens: seq<string>, fetch: string -> Reply<Config>,
                          gh: GitHub, cf: CloudFoundry): Trace
    decreases |files|
  {
    if files == [] then Trace([], true)
    else
      var prev := LegacyFilesRun(files[..|files| - 1], tokens, fetch, gh, cf);
      if !prev.completed then prev
      else
        var p := LegacyPipeline(files[|files| - 1], tokens, fetch, gh, cf);
        Trace(prev.reports + p.reports, p.completed)
  }

  /** `run_github`: every YAML file listed at the root of the declaration repository, in order. */
  function GithubRun(listing: seq<string>, tokens: seq<string>, fetch: string -> Reply<Config>,
                     gh: GitHub, cf: CloudFoundry): Trace
  {
    LegacyFilesRun(YamlPaths(listing), tokens, fetch, gh, cf)
  }

  /** The two lookups agree exactly when there is no match or the first match is also the last:
      `run_check` keeps the last guid, `run_github` the first. */
  lemma FirstAndLastMatch(guids: seq<string>)
    ensures FirstGuid(guids) == LastGuid(None, guids) <==> guids == [] || guids[0] == guids[|guids| - 1]
  {
  }

  /** Lines 72-74: a declaration whose cleaned `scm` does not contain "uktrade" reports only its
      rejection, the loop goes on, and nothing about it is looked up. */
  lemma RejectedPipelineReportsRejection(file: string, tokens: seq<string>, fetch: string -> Reply<Config>,
                                       gh: GitHub, cf: CloudFoundry, config: Config)
    requires fetch(file) == Ok(config) && config.scm.Some?
    requires !Contains(StripAll(config.scm.value, tokens), Owner)
    ensures LegacyPipeline(file, tokens, fetch, gh, cf) == Trace([NotOwner(StripAll(config.scm.value, tokens))], true)
  {
  }

  /** Lines 99-138: every environment reports exactly once, invalid paths and missing revision
      metadata included, until one halts the run; the loop completes exactly when none halts. */
  lemma {:induction false} OneReportPerEnvironment(h: Head, entries: seq<EnvEntry>, gh: GitHub, cf: CloudFoundry)
    ensures var t := LegacyEnvsRun(h, entries, gh, cf);
            |t.reports| <= |entries| &&
            (forall k :: 0 <= k < |t.reports| ==>
               LegacyEnv(h, entries[k], gh, cf) == Reported(t.reports[k])) &&
            (t.completed <==> |t.reports| == |entries|) &&
            (!t.completed ==> LegacyEnv(h, entries[|t.reports|], gh, cf).Halted?)
    decreases |entries|
  {
    if entries != [] {
      var init := entries[..|entries| - 1];
      OneReportPerEnvironment(h, init, gh, cf);
      var prev := LegacyEnvsRun(h, init, gh, cf);
      if !prev.completed {
        assert entries[|prev.reports|] == init[|prev.reports|];
      }
      forall k | 0 <= k < |prev.reports|
        ensures entries[k] == init[k]
      {
      }
    }
  }

  /** Lines 77-138: an accepted declaration whose repository reads succeed reports its default head
      first and then one report per environment, in order, until one halts the run. */
  lemma AcceptedPipelineReportsPerEnvironment(file: string, tokens: seq<string>, fetch: string -> Reply<Config>,
                                              gh: GitHub, cf: CloudFoundry, config: Config, head: Report, h: Head)
    requires fetch(file) == Ok(config) && config.scm.Some?
    requires Contains(StripAll(config.scm.value, tokens), Owner) && NamesReadable(config)
    requires ReadDefaultHead(StripAll(config.scm.value, tokens), gh) == Ok((head, h))
    ensures var t := LegacyPipeline(file, tokens, fetch, gh, cf);
            var entries := config.environments.value;
            1 <= |t.reports| <= 1 + |entries| && t.reports[0] == head &&
            (t.completed <==> |t.reports| == 1 + |entries|) &&
            (forall k :: 0 <= k < |t.reports| - 1 ==> LegacyEnv(h, entries[k], gh, cf) == Reported(t.reports[k + 1]))
  {
    OneReportPerEnvironment(h, config.environments.value, gh, cf);
  }

  /** Lines 105-107: a path without exactly two "/" is reported before any Cloud Foundry lookup. */
  lemma InvalidPathReported(h: Head, entry: EnvEntry, gh: GitHub, cf: CloudFoundry, path: string)
    requires entry.app == Some(path) && Occurrences(path, "/") != 2
    ensures LegacyEnv(h, entry, gh, cf) == Reported(InvalidAppPath(path))
  {
  }

  /** Lines 123-130: missing `GIT_BRANCH` or `GIT_COMMIT` is reported before the deployed commit is
      read. */
  lemma MissingMetadataReported(h: Head, entry: EnvEntry, gh: GitHub, cf: CloudFoundry, path: string,
                                app: Option<string>, vars: map<string, string>)
    requires entry.app == Some(path) && Occurrences(path, "/") == 2
    requires var parts := Split(path, '/');
             |parts| == 3 &&
             exists org, space ::
               GetCfOrgGuid(cf, parts[0]) == Ok(org) && GetCfSpaceGuid(cf, org, parts[1]) == Ok(space) &&
               GetCfAppGuid(cf, org, space, parts[2]) == Ok(app)
    requires cf.appReadable(app) && cf.appEnv(app) == Ok(vars)
    requires "GIT_BRANCH" !in vars || "GIT_COMMIT" !in vars
    ensures LegacyEnv(h, entry, gh, cf) == Reported(NoScmMetadata)
  {
  }

  /** Lines 105-130: an environment that is reported, skipped or not, lets the loop go on to the
      next one. */
  lemma ReportedEnvironmentContinues(h: Head, entries: seq<EnvEntry>, entry: EnvEntry, gh: GitHub, cf: CloudFoundry)
    requires LegacyEnvsRun(h, entries, gh, cf).completed
    requires LegacyEnv(h, entry, gh, cf).Reported?
    ensures LegacyEnvsRun(h, entries + [entry], gh, cf) ==
            Trace(LegacyEnvsRun(h, entries, gh, cf).reports + [LegacyEnv(h, entry, gh, cf).report], true)
  {
    assert (entries + [entry])[..|entries|] == entries;
  }

  /** Lines 80-96: the baseline is the head of the default branch, even when the repository has a
      "main" or "master" branch; the branch list is never read, and the head's author falls back
      to "N/A". */
  lemma BaselineIsDefaultBranch(scm: string, gh: GitHub, meta: RepoMeta, sha: string, count: nat, head: Commit,
                                otherBranches: string -> Reply<seq<string>>)
    requires gh.getRepo(scm) == Ok(meta)
    requires gh.branchHead(scm, meta.defaultBranch) == Ok(sha)
    requires gh.commitCount(scm, meta.defaultBranch) == Ok(count)
    requires gh.getCommit(scm, sha) == Ok(head)
    ensures ReadDefaultHead(scm, gh) ==
            Ok((DefaultHead(scm, meta.defaultBranch, sha, count, head.date, LoginOrNA(head.authorLogin)), Head(scm, head.date)))
    ensures ReadDefaultHead(scm, gh.(branchNames := otherBranches)) == ReadDefaultHead(scm, gh)
    ensures head.authorLogin.None? ==> ReadDefaultHead(scm, gh).value.0.author == "N/A"
  {
  }

  /** Lines 133-137: a drift report compares the deployed commit's date with the default head's
      date, and names the deployed branch, commit and author as read. */
  lemma DriftAgainstDefaultHead(h: Head, entry: EnvEntry, gh: GitHub, cf: CloudFoundry)
    requires LegacyEnv(h, entry, gh, cf).Reported? && LegacyEnv(h, entry, gh, cf).report.Drift?
    ensures var d := LegacyEnv(h, entry, gh, cf).report;
            gh.getCommit(h.scm, d.commit).Ok? &&
            gh.getCommit(h.scm, d.commit).value.date == d.commitDate &&
            gh.getCommit(h.scm, d.commit).value.authorLogin == Some(d.author) &&
            d.drift == d.commitDate - h.date &&
            d.days * SecondsPerDay <= d.drift < (d.days + 1) * SecondsPerDay
  {
  }

  /** The reports each declaration makes on its own, in listing order. */
  function PerLegacyPipeline(files: seq<string>, tokens: seq<string>, fetch: string -> Reply<Config>,
                             gh: GitHub, cf: CloudFoundry): (parts: seq<seq<Report>>)
    ensures |parts| == |files|
  {
    seq(|files|, k requires 0 <= k < |files| => LegacyPipeline(files[k], tokens, fetch, gh, cf).reports)
  }

  /** `run_github` completes exactly when every declaration completes, and then it has made the
      reports of every declaration, in listing order. */
  lemma {:induction false} WholeGithubRunReportsEveryPipeline(files: seq<string>, tokens: seq<string>,
                                                              fetch: string -> Reply<Config>, gh: GitHub, cf: CloudFoundry)
    ensures var t := LegacyFilesRun(files, tokens, fetch, gh, cf);
            (t.completed <==> forall k :: 0 <= k < |files| ==> LegacyPipeline(files[k], tokens, fetch, gh, cf).completed) &&
            (t.completed ==> t.reports == Flatten(PerLegacyPipeline(files, tokens, fetch, gh, cf)))
    decreases |files|
  {
    if files != [] {
      var init := files[..|files| - 1];
      var last := files[|files| - 1];
      WholeGithubRunReportsEveryPipeline(init, tokens, fetch, gh, cf);
      assert files == init + [last];
      var parts := PerLegacyPipeline(files, tokens, fetch, gh, cf);
      assert parts == PerLegacyPipeline(init, tokens, fetch, gh, cf) + [parts[|files| - 1]];
      FlattenAppend(PerLegacyPipeline(init, tokens, fetch, gh, cf), parts[|files| - 1]);
      var prev := LegacyFilesRun(init, tokens, fetch, gh, cf);
      if !prev.completed {
        var k :| 0 <= k < |init| && !LegacyPipeline(init[k], tokens, fetch, gh, cf).completed;
        assert files[k] == init[k];
      }
    }
  }
}
