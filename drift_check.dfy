/** What `run_check` computes, as functions: the repository baseline of a pipeline, the staged
    resolution of each environment, and the records written for a pipeline and for a whole run.
    A `Run` that is not `completed` stopped because a call outside any `try` raised: the records
    written before that call stay written, and nothing after it is processed. */
module DriftCheck {
  import opened Wrappers
  import opened Text
  import opened Gateways
  import opened PipelineConfig
  import opened Records

  /** Only declarations whose cleaned `scm` contains this are processed. */
  const Owner := "uktrade"
  /** Only environments of this `type` are resolved. */
  const ProcessedType := "gds"

  /** How far the resolution of one environment got. */
  datatype Stage = WrongType | InvalidPath | AppNotFound | MissingGitMetadata | CommitUnreadable | Resolved

  /** One environment either writes its record, after stopping at some stage, or aborts the run. */
  datatype EnvResult = Emitted(env: EnvFields, stage: Stage) | Aborted

  /** The pipeline row once the repository has been read, with the primary head commit. */
  datatype Baseline = Baseline(app: AppFields, scm: string, headSha: string, headDate: int)

  /** The records written, and whether processing went to the end. */
  datatype Run = Run(records: seq<Record>, completed: bool)

  function NotOwnerMessage(scm: string): string {
    "Not a UKTRADE repo: " + scm
  }

  function WrongTypeMessage(appType: string): string {
    "App type is '" + appType + "'. Only processing 'gds' type apps here."
  }

  function InvalidPathMessage(path: string): string {
    "Invalid app path: " + path + "!"
  }

  /** The guid as the message shows it; a guid never assigned shows as the empty string. */
  function ShowGuid(guid: Option<string>): string {
    if guid.Some? then guid.value else ""
  }

  function AppMessage(appName: string, guid: Option<string>): string {
    "Cannot read app '" + appName + "' with guid '" + ShowGuid(guid) + "'!"
  }

  const NoScmMessage := "No SCM Branch or Commit Hash in app environmant"

  function CommitMessage(sha: string): string {
    "Cannot read commit " + sha + "!"
  }

  /** The primary branch: "main" if the repository has it, else "master" if it has that, else
      the repository's default branch. */
  function PrimaryBranch(defaultBranch: string, branches: seq<string>): string {
    if "main" in branches then "main" else if "master" in branches then "master" else defaultBranch
  }

  /** A login, or "N/A" when it cannot be read. */
  function LoginOrNA(login: Option<string>): string {
    if login.Some? then login.value else "N/A"
  }

  /** The guid field after a `for` loop over the matches assigns each in turn: the last match
      wins, and an empty listing leaves the field as it was. */
  function LastGuid(current: Option<string>, guids: seq<string>): Option<string> {
    if guids == [] then current else Some(guids[|guids| - 1])
  }

  /** `not guid`: never assigned, or assigned the empty string. */
  predicate GuidMissing(guid: Option<string>) {
    guid.None? || guid.value == ""
  }

  /** Lines 106-151: repository metadata, branches, primary branch, its head commit and count. Every
      call here is outside any `try`; only the author and committer logins fall back to "N/A". */
  function ReadRepoState(app: AppFields, scm: string, gh: GitHub): Reply<Baseline> {
    match gh.getRepo(scm)
    case Raised => Raised
    case Ok(meta) =>
      match gh.branchNames(scm)
      case Raised => Raised
      case Ok(branches) =>
        var primary := PrimaryBranch(meta.defaultBranch, branches);
        match gh.branchHead(scm, primary)
        case Raised => Raised
        case Ok(sha) =>
          match gh.commitCount(scm, primary)
          case Raised => Raised
          case Ok(count) =>
            match gh.getCommit(scm, sha)
            case Raised => Raised
            case Ok(head) =>
              var a := app.(scmRepoName := Some(meta.name), scmRepoId := Some(meta.id),
                            scmRepoPrivate := Some(meta.isPrivate), scmRepoArchived := Some(meta.archived),
                            scmRepoBranchList := Some(branches),
                            scmRepoDefaultBranchName := Some(meta.defaultBranch),
                            scmRepoPrimaryBranchName := Some(primary),
                            scmRepoPrimaryBranchHeadCommitSha := Some(sha),
                            scmRepoPrimaryBranchHeadCommitCount := Some(count),
                            scmRepoPrimaryBranchHeadCommitDate := Some(head.date),
                            scmRepoPrimaryBranchHeadCommitAuthor := Some(LoginOrNA(head.authorLogin)),
                            scmRepoPrimaryBranchHeadCommitCommitter := Some(LoginOrNA(head.committerLogin)));
              Ok(Baseline(a, scm, sha, head.date))
  }

  /** The commit block (lines 207-234): any failure in it writes "Cannot read commit <sha>!" with the
      fields assigned so far. */
  function Unreadable(e: EnvFields, sha: string): EnvResult {
    Emitted(e.(logMessage := Some(CommitMessage(sha))), CommitUnreadable)
  }

  function ReadCommit(b: Baseline, e: EnvFields, sha: string, gh: GitHub): EnvResult {
    match gh.getCommit(b.scm, sha)
    case Raised => Unreadable(e, sha)
    case Ok(c) =>
      var e := e.(cfCommitDate := Some(c.date));
      match c.authorLogin
      case None => Unreadable(e, sha)
      case Some(author) =>
        var e := e.(cfCommitAuthor := Some(author));
        match gh.commitCount(b.scm, sha)
        case Raised => Unreadable(e, sha)
        case Ok(count) =>
          var e := e.(cfCommitCount := Some(count), driftTimeSimple := Some(c.date - b.headDate));
          match gh.compare(b.scm, b.headSha, sha)
          case Raised => Unreadable(e, sha)
          case Ok(cmp) =>
            var e := e.(gitCompareAheadBy := Some(cmp.aheadBy), gitCompareBehindBy := Some(cmp.behindBy),
                        gitCompareMergeBaseCommit := Some(cmp.mergeBaseSha));
            match gh.getCommit(b.scm, cmp.mergeBaseSha)
            case Raised => Unreadable(e, sha)
            case Ok(mergeBase) =>
              Emitted(e.(gitCompareMergeBaseCommitDate := Some(mergeBase.date),
                         driftTimeMergeBase := Some(mergeBase.date - b.headDate)), Resolved)
  }

  /** Lines 196-205: the deployed branch and commit from the app's environment variables. */
  function ReadDeployedRevision(b: Baseline, e: EnvFields, gh: GitHub, cf: CloudFoundry): EnvResult {
    match cf.appEnv(e.cfAppGuid)
    case Raised => Aborted
    case Ok(vars) =>
      if "GIT_BRANCH" !in vars then Emitted(e.(logMessage := Some(NoScmMessage)), MissingGitMetadata)
      else
        var e := e.(cfAppGitBranch := Some(vars["GIT_BRANCH"]));
        if "GIT_COMMIT" !in vars then Emitted(e.(logMessage := Some(NoScmMessage)), MissingGitMetadata)
        else ReadCommit(b, e.(cfAppGitCommit := Some(vars["GIT_COMMIT"])), vars["GIT_COMMIT"], gh)
  }

  /** Lines 178-194: org, space and app guids from the three path segments. */
  function LookupApp(b: Baseline, e: EnvFields, parts: seq<string>, gh: GitHub, cf: CloudFoundry): EnvResult
    requires |parts| == 3
  {
    var e := e.(cfOrgName := Some(parts[0]));
    match cf.orgGuids(parts[0])
    case Raised => Aborted
    case Ok(orgs) =>
      var e := e.(cfOrgGuid := LastGuid(e.cfOrgGuid, orgs), cfSpaceName := Some(parts[1]));
      match cf.spaceGuids(parts[1], e.cfOrgGuid)
      case Raised => Aborted
      case Ok(spaces) =>
        var e := e.(cfSpaceGuid := LastGuid(e.cfSpaceGuid, spaces), cfAppName := Some(parts[2]));
        match cf.appGuids(parts[2], e.cfSpaceGuid, e.cfOrgGuid)
        case Raised => Aborted
        case Ok(apps) =>
          var e := e.(cfAppGuid := LastGuid(e.cfAppGuid, apps));
          if GuidMissing(e.cfAppGuid) then Emitted(e.(logMessage := Some(AppMessage(parts[2], e.cfAppGuid))), AppNotFound)
          else ReadDeployedRevision(b, e, gh, cf)
  }

  /** Lines 157-237: one environment, from a fresh row to the one `write_record` that ends it. */
  function ResolveEnv(b: Baseline, entry: EnvEntry, gh: GitHub, cf: CloudFoundry): EnvResult {
    match entry.environment
    case None => Aborted
    case Some(name) =>
      match entry.appType
      case None => Aborted
      case Some(appType) =>
        var e := NoEnvFields.(configEnv := Some(name), cfAppType := Some(appType));
        if appType != ProcessedType then Emitted(e.(logMessage := Some(WrongTypeMessage(appType))), WrongType)
        else
          match entry.app
          case None => Aborted
          case Some(path) =>
            var e := e.(cfFullName := Some(path));
            if Occurrences(path, "/") != 2 then Emitted(e.(logMessage := Some(InvalidPathMessage(path))), InvalidPath)
            else
              SplitPieces(path, '/');
              LookupApp(b, e, Split(path, '/'), gh, cf)
  }

  /** The environment loop over the first `|entries|` entries of a declaration. */
  function EnvsRun(b: Baseline, entries: seq<EnvEntry>, gh: GitHub, cf: CloudFoundry): Run
    decreases |entries|
  {
    if entries == [] then Run([], true)
    else
      var prev := EnvsRun(b, entries[..|entries| - 1], gh, cf);
      if !prev.completed then prev
      else
        match ResolveEnv(b, entries[|entries| - 1], gh, cf)
        case Aborted => Run(prev.records, false)
        case Emitted(e, _) => Run(prev.records + [Record(b.app, e)], true)
  }

  /** Lines 78-239: one pipeline declaration file. */
  function PipelineRun(file: string, scanStart: int, tokens: seq<string>, fetch: string -> Reply<Config>,
                       gh: GitHub, cf: CloudFoundry): Run
  {
    var app := NoAppFields.(configFilename := Some(file), scanStartTime := Some(scanStart));
    match fetch(file)
    case Raised => Run([], false)
    case Ok(raw) =>
      match CleanConfig(raw, tokens)
      case Raised => Run([], false)
      case Ok(config) =>
        var app := app.(config := Some(config));
        match config.scm
        case None => Run([], false)
        case Some(scm) =>
          if !Contains(scm, Owner) then
            Run([Record(app, NoEnvFields.(logMessage := Some(NotOwnerMessage(scm))))], true)
          else if !NamesReadable(config) then Run([], false)
          else
            match ReadRepoState(app, scm, gh)
            case Raised => Run([], false)
            case Ok(b) => EnvsRun(b, config.environments.value, gh, cf)
  }

  /** The pipeline loop over the first `|files|` declaration files. */
  function FilesRun(files: seq<string>, scanStart: int, tokens: seq<string>, fetch: string -> Reply<Config>,
                    gh: GitHub, cf: CloudFoundry): Run
    decreases |files|
  {
    if files == [] then Run([], true)
    else
      var prev := FilesRun(files[..|files| - 1], scanStart, tokens, fetch, gh, cf);
      if !prev.completed then prev
      else
        var p := PipelineRun(files[|files| - 1], scanStart, tokens, fetch, gh, cf);
        Run(prev.records + p.records, p.completed)
  }

  /** `run_check`: every YAML file listed at the root of the declaration repository, in order. */
  function CheckRun(listing: seq<string>, scanStart: int, tokens: seq<string>, fetch: string -> Reply<Config>,
                    gh: GitHub, cf: CloudFoundry): Run
  {
    FilesRun(YamlPaths(listing), scanStart, tokens, fetch, gh, cf)
  }
}
