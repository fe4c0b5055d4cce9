/** The two rows the checker writes for every outcome: the pipeline-level fields (`PipelineApp`)
    and the environment-level fields (`PipelineEnv`). The checker creates one object of each kind
    and assigns its fields one at a time as resolution advances; a field never assigned is `None`. */
module Records {
  import opened Wrappers
  import opened Gateways

  /** The values of a `PipelineApp` row. Times are whole seconds. */
  datatype AppFields = AppFields(
    configFilename: Option<string>,
    scanStartTime: Option<int>,
    config: Option<Config>,
    scmRepoName: Option<string>,
    scmRepoId: Option<int>,
    scmRepoPrivate: Option<bool>,
    scmRepoArchived: Option<bool>,
    scmRepoBranchList: Option<seq<string>>,
    scmRepoDefaultBranchName: Option<string>,
    scmRepoPrimaryBranchName: Option<string>,
    scmRepoPrimaryBranchHeadCommitSha: Option<string>,
    scmRepoPrimaryBranchHeadCommitCount: Option<nat>,
    scmRepoPrimaryBranchHeadCommitDate: Option<int>,
    scmRepoPrimaryBranchHeadCommitAuthor: Option<string>,
    scmRepoPrimaryBranchHeadCommitCommitter: Option<string>)

  /** The values of a `PipelineEnv` row. Dates are whole seconds, drifts signed seconds. */
  datatype EnvFields = EnvFields(
    configEnv: Option<string>,
    cfAppType: Option<string>,
    cfFullName: Option<string>,
    cfOrgName: Option<string>,
    cfOrgGuid: Option<string>,
    cfSpaceName: Option<string>,
    cfSpaceGuid: Option<string>,
    cfAppName: Option<string>,
    cfAppGuid: Option<string>,
    cfAppGitBranch: Option<string>,
    cfAppGitCommit: Option<string>,
    cfCommitDate: Option<int>,
    cfCommitAuthor: Option<string>,
    cfCommitCount: Option<nat>,
    driftTimeSimple: Option<int>,
    gitCompareAheadBy: Option<nat>,
    gitCompareBehindBy: Option<nat>,
    gitCompareMergeBaseCommit: Option<string>,
    gitCompareMergeBaseCommitDate: Option<int>,
    driftTimeMergeBase: Option<int>,
    logMessage: Option<string>)

  /** What one `write_record(app, env)` writes. */
  datatype Record = Record(app: AppFields, env: EnvFields)

  const NoAppFields := AppFields(None, None, None, None, None, None, None, None, None, None, None, None, None, None, None)

  const NoEnvFields := EnvFields(None, None, None, None, None, None, None, None, None, None, None,
                                 None, None, None, None, None, None, None, None, None, None)

  class PipelineApp {
    var configFilename: Option<string>
    var scanStartTime: Option<int>
    var config: Option<Config>
    var scmRepoName: Option<string>
    var scmRepoId: Option<int>
    var scmRepoPrivate: Option<bool>
    var scmRepoArchived: Option<bool>
    var scmRepoBranchList: Option<seq<string>>
    var scmRepoDefaultBranchName: Option<string>
    var scmRepoPrimaryBranchName: Option<string>
    var scmRepoPrimaryBranchHeadCommitSha: Option<string>
    var scmRepoPrimaryBranchHeadCommitCount: Option<nat>
    var scmRepoPrimaryBranchHeadCommitDate: Option<int>
    var scmRepoPrimaryBranchHeadCommitAuthor: Option<string>
    var scmRepoPrimaryBranchHeadCommitCommitter: Option<string>

    /** A new row: nothing assigned yet. */
    constructor ()
      ensures Fields() == NoAppFields
    {
      configFilename, scanStartTime, config := None, None, None;
      scmRepoName, scmRepoId, scmRepoPrivate, scmRepoArchived := None, None, None, None;
      scmRepoBranchList, scmRepoDefaultBranchName, scmRepoPrimaryBranchName := None, None, None;
      scmRepoPrimaryBranchHeadCommitSha, scmRepoPrimaryBranchHeadCommitCount := None, None;
      scmRepoPrimaryBranchHeadCommitDate := None;
      scmRepoPrimaryBranchHeadCommitAuthor, scmRepoPrimaryBranchHeadCommitCommitter := None, None;
    }

    /** The row as `write_record` saves it. */
    function Fields(): AppFields
      reads this
    {
      AppFields(configFilename, scanStartTime, config, scmRepoName, scmRepoId, scmRepoPrivate,
                scmRepoArchived, scmRepoBranchList, scmRepoDefaultBranchName, scmRepoPrimaryBranchName,
                scmRepoPrimaryBranchHeadCommitSha, scmRepoPrimaryBranchHeadCommitCount,
                scmRepoPrimaryBranchHeadCommitDate, scmRepoPrimaryBranchHeadCommitAuthor,
                scmRepoPrimaryBranchHeadCommitCommitter)
    }

    // One setter per attribute: `set_log_attribute(attribute, value)` assigns that attribute
    // and leaves the others as they are.

    method SetConfigFilename(v: string)
      modifies this`configFilename
      ensures Fields() == old(Fields()).(configFilename := Some(v))
    {
      configFilename := Some(v);
    }

    method SetScanStartTime(v: int)
      modifies this`scanStartTime
      ensures Fields() == old(Fields()).(scanStartTime := Some(v))
    {
      scanStartTime := Some(v);
    }

    method SetConfig(v: Config)
      modifies this`config
      ensures Fields() == old(Fields()).(config := Some(v))
    {
      config := Some(v);
    }

    method SetScmRepoName(v: string)
      modifies this`scmRepoName
      ensures Fields() == old(Fields()).(scmRepoName := Some(v))
    {
      scmRepoName := Some(v);
    }

    method SetScmRepoId(v: int)
      modifies this`scmRepoId
      ensures Fields() == old(Fields()).(scmRepoId := Some(v))
    {
      scmRepoId := Some(v);
    }

    method SetScmRepoPrivate(v: bool)
      modifies this`scmRepoPrivate
      ensures Fields() == old(Fields()).(scmRepoPrivate := Some(v))
    {
      scmRepoPrivate := Some(v);
    }

    method SetScmRepoArchived(v: bool)
      modifies this`scmRepoArchived
      ensures Fields() == old(Fields()).(scmRepoArchived := Some(v))
    {
      scmRepoArchived := Some(v);
    }

    method SetScmRepoBranchList(v: seq<string>)
      modifies this`scmRepoBranchList
      ensures Fields() == old(Fields()).(scmRepoBranchList := Some(v))
    {
      scmRepoBranchList := Some(v);
    }

    method SetScmRepoDefaultBranchName(v: string)
      modifies this`scmRepoDefaultBranchName
      ensures Fields() == old(Fields()).(scmRepoDefaultBranchName := Some(v))
    {
      scmRepoDefaultBranchName := Some(v);
    }

    method SetScmRepoPrimaryBranchName(v: string)
      modifies this`scmRepoPrimaryBranchName
      ensures Fields() == old(Fields()).(scmRepoPrimaryBranchName := Some(v))
    {
      scmRepoPrimaryBranchName := Some(v);
    }

    method SetScmRepoPrimaryBranchHeadCommitSha(v: string)
      modifies this`scmRepoPrimaryBranchHeadCommitSha
      ensures Fields() == old(Fields()).(scmRepoPrimaryBranchHeadCommitSha := Some(v))
    {
      scmRepoPrimaryBranchHeadCommitSha := Some(v);
    }

    method SetScmRepoPrimaryBranchHeadCommitCount(v: nat)
      modifies this`scmRepoPrimaryBranchHeadCommitCount
      ensures Fields() == old(Fields()).(scmRepoPrimaryBranchHeadCommitCount := Some(v))
    {
      scmRepoPrimaryBranchHeadCommitCount := Some(v);
    }

    method SetScmRepoPrimaryBranchHeadCommitDate(v: int)
      modifies this`scmRepoPrimaryBranchHeadCommitDate
      ensures Fields() == old(Fields()).(scmRepoPrimaryBranchHeadCommitDate := Some(v))
    {
      scmRepoPrimaryBranchHeadCommitDate := Some(v);
    }

    method SetScmRepoPrimaryBranchHeadCommitAuthor(v: string)
      modifies this`scmRepoPrimaryBranchHeadCommitAuthor
      ensures Fields() == old(Fields()).(scmRepoPrimaryBranchHeadCommitAuthor := Some(v))
    {
      scmRepoPrimaryBranchHeadCommitAuthor := Some(v);
    }

    method SetScmRepoPrimaryBranchHeadCommitCommitter(v: string)
      modifies this`scmRepoPrimaryBranchHeadCommitCommitter
      ensures Fields() == old(Fields()).(scmRepoPrimaryBranchHeadCommitCommitter := Some(v))
    {
      scmRepoPrimaryBranchHeadCommitCommitter := Some(v);
    }
  }

  class PipelineEnv {
    var configEnv: Option<string>
    var cfAppType: Option<string>
    var cfFullName: Option<string>
    var cfOrgName: Option<string>
    var cfOrgGuid: Option<string>
    var cfSpaceName: Option<string>
    var cfSpaceGuid: Option<string>
    var cfAppName: Option<string>
    var cfAppGuid: Option<string>
    var cfAppGitBranch: Option<string>
    var cfAppGitCommit: Option<string>
    var cfCommitDate: Option<int>
    var cfCommitAuthor: Option<string>
    var cfCommitCount: Option<nat>
    var driftTimeSimple: Option<int>
    var gitCompareAheadBy: Option<nat>
    var gitCompareBehindBy: Option<nat>
    var gitCompareMergeBaseCommit: Option<string>
    var gitCompareMergeBaseCommitDate: Option<int>
    var driftTimeMergeBase: Option<int>
    var logMessage: Option<string>

    /** A new row: nothing assigned yet. */
    constructor ()
      ensures Fields() == NoEnvFields
    {
      configEnv, cfAppType, cfFullName := None, None, None;
      cfOrgName, cfOrgGuid, cfSpaceName, cfSpaceGuid, cfAppName, cfAppGuid := None, None, None, None, None, None;
      cfAppGitBranch, cfAppGitCommit := None, None;
      cfCommitDate, cfCommitAuthor, cfCommitCount, driftTimeSimple := None, None, None, None;
      gitCompareAheadBy, gitCompareBehindBy, gitCompareMergeBaseCommit := None, None, None;
      gitCompareMergeBaseCommitDate, driftTimeMergeBase, logMessage := None, None, None;
    }

    /** The row as `write_record` saves it. */
    function Fields(): EnvFields
      reads this
    {
      EnvFields(configEnv, cfAppType, cfFullName, cfOrgName, cfOrgGuid, cfSpaceName, cfSpaceGuid,
                cfAppName, cfAppGuid, cfAppGitBranch, cfAppGitCommit, cfCommitDate, cfCommitAuthor,
                cfCommitCount, driftTimeSimple, gitCompareAheadBy, gitCompareBehindBy,
                gitCompareMergeBaseCommit, gitCompareMergeBaseCommitDate, driftTimeMergeBase, logMessage)
    }

    // One setter per attribute: `set_log_attribute(attribute, value)` assigns that attribute
    // and leaves the others as they are.

    method SetConfigEnv(v: string)
      modifies this`configEnv
      ensures Fields() == old(Fields()).(configEnv := Some(v))
    {
      configEnv := Some(v);
    }

    method SetCfAppType(v: string)
      modifies this`cfAppType
      ensures Fields() == old(Fields()).(cfAppType := Some(v))
    {
      cfAppType := Some(v);
    }

    method SetCfFullName(v: string)
      modifies this`cfFullName
      ensures Fields() == old(Fields()).(cfFullName := Some(v))
    {
      cfFullName := Some(v);
    }

    method SetCfOrgName(v: string)
      modifies this`cfOrgName
      ensures Fields() == old(Fields()).(cfOrgName := Some(v))
    {
      cfOrgName := Some(v);
    }

    method SetCfOrgGuid(v: string)
      modifies this`cfOrgGuid
      ensures Fields() == old(Fields()).(cfOrgGuid := Some(v))
    {
      cfOrgGuid := Some(v);
    }

    method SetCfSpaceName(v: string)
      modifies this`cfSpaceName
      ensures Fields() == old(Fields()).(cfSpaceName := Some(v))
    {
      cfSpaceName := Some(v);
    }

    method SetCfSpaceGuid(v: string)
      modifies this`cfSpaceGuid
      ensures Fields() == old(Fields()).(cfSpaceGuid := Some(v))
    {
      cfSpaceGuid := Some(v);
    }

    method SetCfAppName(v: string)
      modifies this`cfAppName
      ensures Fields() == old(Fields()).(cfAppName := Some(v))
    {
      cfAppName := Some(v);
    }

    method SetCfAppGuid(v: string)
      modifies this`cfAppGuid
      ensures Fields() == old(Fields()).(cfAppGuid := Some(v))
    {
      cfAppGuid := Some(v);
    }

    method SetCfAppGitBranch(v: string)
      modifies this`cfAppGitBranch
      ensures Fields() == old(Fields()).(cfAppGitBranch := Some(v))
    {
      cfAppGitBranch := Some(v);
    }

    method SetCfAppGitCommit(v: string)
      modifies this`cfAppGitCommit
      ensures Fields() == old(Fields()).(cfAppGitCommit := Some(v))
    {
      cfAppGitCommit := Some(v);
    }

    method SetCfCommitDate(v: int)
      modifies this`cfCommitDate
      ensures Fields() == old(Fields()).(cfCommitDate := Some(v))
    {
      cfCommitDate := Some(v);
    }

    method SetCfCommitAuthor(v: string)
      modifies this`cfCommitAuthor
      ensures Fields() == old(Fields()).(cfCommitAuthor := Some(v))
    {
      cfCommitAuthor := Some(v);
    }

    method SetCfCommitCount(v: nat)
      modifies this`cfCommitCount
      ensures Fields() == old(Fields()).(cfCommitCount := Some(v))
    {
      cfCommitCount := Some(v);
    }

    method SetDriftTimeSimple(v: int)
      modifies this`driftTimeSimple
      ensures Fields() == old(Fields()).(driftTimeSimple := Some(v))
    {
      driftTimeSimple := Some(v);
    }

    method SetGitCompareAheadBy(v: nat)
      modifies this`gitCompareAheadBy
      ensures Fields() == old(Fields()).(gitCompareAheadBy := Some(v))
    {
      gitCompareAheadBy := Some(v);
    }

    method SetGitCompareBehindBy(v: nat)
      modifies this`gitCompareBehindBy
      ensures Fields() == old(Fields()).(gitCompareBehindBy := Some(v))
    {
      gitCompareBehindBy := Some(v);
    }

    method SetGitCompareMergeBaseCommit(v: string)
      modifies this`gitCompareMergeBaseCommit
      ensures Fields() == old(Fields()).(gitCompareMergeBaseCommit := Some(v))
    {
      gitCompareMergeBaseCommit := Some(v);
    }

    method SetGitCompareMergeBaseCommitDate(v: int)
      modifies this`gitCompareMergeBaseCommitDate
      ensures Fields() == old(Fields()).(gitCompareMergeBaseCommitDate := Some(v))
    {
      gitCompareMergeBaseCommitDate := Some(v);
    }

    method SetDriftTimeMergeBase(v: int)
      modifies this`driftTimeMergeBase
      ensures Fields() == old(Fields()).(driftTimeMergeBase := Some(v))
    {
      driftTimeMergeBase := Some(v);
    }

    method SetLogMessage(v: string)
      modifies this`logMessage
      ensures Fields() == old(Fields()).(logMessage := Some(v))
    {
      logMessage := Some(v);
    }
  }

  /** `write_record(app, env)`: the pair of rows as they stand at the time of the call. */
  function WriteRecord(app: PipelineApp, env: PipelineEnv): Record
    reads app, env
  {
    Record(app.Fields(), env.Fields())
  }
}
