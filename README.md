# cf-app-version-checker drift check, modelled in Dafny

The checker audits applications deployed on Cloud Foundry for drift from their source repository.
A repository of pipeline declarations (YAML files) names, for each application, its GitHub
repository (`scm`) and its deployment environments (`environment`, `type`, `app` path
`org/space/app`).

For every declaration, `run_check` in `checker/check.py` does the following:

- It reads the repository.
- It picks the primary branch ("main", else "master", else the default branch) and reads that branch's head commit.
- For every environment, it resolves the Cloud Foundry org, space and app.
- It reads the deployed `GIT_BRANCH` and `GIT_COMMIT`.
- It compares the deployed commit with the primary head. The two drifts are the signed differences between commit dates.

It writes one `PipelineApp`/`PipelineEnv` record pair per environment, each stopped at the first stage that fails. A declaration whose `scm` does not contain "uktrade" gets a single record instead. `run_github` in `checker/github.py` is an older variant of the same flow that only logs.

The model has these layers:

- **Gateways** (`gateways.dfy`). GitHub, Cloud Foundry and the fetch-and-decode of a declaration are data: records of functions that return `Ok(value)` or `Raised`. A `Raised` reply where the source has no `try` ends the whole run. The model reports such a run as not `completed`, and the records written before it stay written.
- **Python string operations** (`text.dfy`). `in`, `str.replace(t, "")` (non-overlapping, left to right), `str.count` and `str.split` on one character.
- **Flattening** (`sequences.dfy`). Lists of per-declaration outputs written one after the other. Both run-level lemmas use it.
- **Configuration helpers** (`pipeline_config.dfy`). The `.yaml` path filter, the `scm` clean-up and the list of environment names. Each is an imperative loop proved against a specification function.
- **The record rows** (`records.dfy`). `PipelineApp` and `PipelineEnv` are classes whose fields start unset (`None`). One setter per `set_log_attribute` attribute changes exactly that field. `write_record` appends `Record(app.Fields(), env.Fields())` to the output.
- **What `run_check` computes** (`drift_check.dfy`). It is written as functions: the repository baseline, the staged resolution of one environment, and the records of a pipeline and of a run. Properties of these functions are proved in `drift_lemmas.dfy`.
- **`run_check` as written** (`check.dfy`). Fresh rows are assigned field by field, with the branch-override loop, the guid loops, `continue` at each failing stage and one `write_record` per outcome. Every method is proved to write exactly the records its function gives.
- **`run_github`** (`github_drift.dfy`, `github_check.dfy`). The first-match guid lookups, the default-branch baseline and a trace of the reports the run logs (the "Not a UKTRADE repo" warning, the default-branch head, the invalid-path, unreadable-app and missing-metadata errors and the drift lines, with the drift in whole days). The run is specified as functions and implemented as loops proved against them.

Some behaviours of `checker/check.py` worth noting:

- Cleaning `scm` is not idempotent. `"aabb".replace("ab", "")` is `"ab"`, and cleaning that again gives `""` (`Text.RemoveNotIdempotent`). The order of the tokens matters too (`PipelineConfig.CleanupOrderMatters`).
- A head commit without a linked author or committer is recorded as "N/A", not left empty.
- A failure while reading the repository, a failing Cloud Foundry listing and a failing `get_env` abort the whole run. None of them produces a per-pipeline or per-environment outcome.
- The owner gate is a substring test anywhere in `scm`, not an ownership prefix.

## Model

| member | source | states |
|---|---|---|
| Text.Remove | checker/check.py:23 | `s.replace(t, "")` is never longer than `s` |
| Text.RemoveLength | checker/check.py:23 | the result is shorter than `s` by `len(t)` times the number of non-overlapping occurrences that `count` finds |
| Text.RemoveAbsent | checker/check.py:23 | a token that does not occur leaves the string unchanged |
| Text.RemovePresent | checker/check.py:23 | a non-empty token that occurs makes the string strictly shorter |
| Text.RemoveNotIdempotent | checker/check.py:23 | removing "ab" from "aabb" leaves "ab", and removing it again leaves "": one pass is not a fixpoint |
| Text.OccurrencesIffContains | checker/check.py:172 | for a non-empty token, `count` is positive exactly when `in` holds |
| Text.ContainsNeedsRoom | checker/check.py:95 | a string contains only tokens no longer than itself |
| Text.ContainsInfix | checker/check.py:95 | `t in before + t + after` for every `before` and `after` |
| Text.Split | checker/check.py:179 | `split` always returns at least one piece |
| Text.SplitPieces | checker/check.py:172-185 | `split("/")` returns `count("/") + 1` pieces, none containing "/"; so a path with exactly two "/" has the three segments the lookups index |
| Text.JoinSplit | checker/check.py:179-185 | joining the pieces of `split(c)` with `c` gives back the path |
| PipelineConfig.GetPipelineConfigs | checker/check.py:11-16 | the loop returns exactly the listed paths that contain ".yaml", in listing order |
| PipelineConfig.YamlPathsMembers | checker/github.py:9-14 | a path is kept iff it is listed and contains ".yaml" anywhere; the result is no longer than the listing |
| PipelineConfig.YamlPathsPrefix | checker/check.py:11-16 | filtering a listing split in two is filtering each part, in order |
| PipelineConfig.StripAll | checker/check.py:22-23 | the cleaned `scm` is never longer than the declared one |
| PipelineConfig.CleanScm | checker/check.py:22-23 | the loop applies `replace(token, "")` for each token in configured order |
| PipelineConfig.StripAllAbsent | checker/check.py:22-23 | tokens that do not occur, and in particular an empty clean-up list, leave `scm` unchanged |
| PipelineConfig.CleanupOrderMatters | checker/check.py:22-23 | the same tokens in another order give another result ("abb" with ["ab","b"] gives "", with ["b","ab"] gives "a") |
| PipelineConfig.CleanConfig | checker/check.py:19-24 | only `scm` changes; it is present after clean-up iff it was before; a declaration without `scm` raises exactly when there is a token to remove |
| PipelineConfig.GetAppConfigYaml | checker/check.py:19-24 | the clean-up as written computes the cleaned declaration |
| PipelineConfig.EnvironmentNames | checker/check.py:27-31 | succeeds iff there is an `environments` list whose every entry has `environment`; then one name per entry, in order |
| Records.PipelineApp.constructor | checker/check.py:80 | a new application row has every field unset |
| Records.PipelineEnv.constructor | checker/check.py:158 | a new environment row has every field unset |
| Records.PipelineApp.SetConfigFilename | checker/check.py:81 | assigns `config_filename`: the declaration file's path and leaves every other field of the row as it was |
| Records.PipelineApp.SetScanStartTime | checker/check.py:82 | assigns `scan_start_time`: the time the scan started and leaves every other field of the row as it was |
| Records.PipelineApp.SetConfig | checker/check.py:93 | assigns `config`: the cleaned declaration and leaves every other field of the row as it was |
| Records.PipelineApp.SetScmRepoName | checker/check.py:107 | assigns `scm_repo_name` and leaves every other field of the row as it was |
| Records.PipelineApp.SetScmRepoId | checker/check.py:108 | assigns `scm_repo_id` and leaves every other field of the row as it was |
| Records.PipelineApp.SetScmRepoPrivate | checker/check.py:109 | assigns `scm_repo_private` and leaves every other field of the row as it was |
| Records.PipelineApp.SetScmRepoArchived | checker/check.py:110 | assigns `scm_repo_archived` and leaves every other field of the row as it was |
| Records.PipelineApp.SetScmRepoBranchList | checker/check.py:113-114 | assigns `scm_repo_branch_list`: the names of the repository's branches and leaves every other field of the row as it was |
| Records.PipelineApp.SetScmRepoDefaultBranchName | checker/check.py:115 | assigns `scm_repo_default_branch_name` and leaves every other field of the row as it was |
| Records.PipelineApp.SetScmRepoPrimaryBranchName | checker/check.py:116-121 | assigns `scm_repo_primary_branch_name`, assigned the default branch and then each override and leaves every other field of the row as it was |
| Records.PipelineApp.SetScmRepoPrimaryBranchHeadCommitSha | checker/check.py:126-127 | assigns `scm_repo_primary_branch_head_commit_sha` and leaves every other field of the row as it was |
| Records.PipelineApp.SetScmRepoPrimaryBranchHeadCommitCount | checker/check.py:130-131 | assigns `scm_repo_primary_branch_head_commit_count` and leaves every other field of the row as it was |
| Records.PipelineApp.SetScmRepoPrimaryBranchHeadCommitDate | checker/check.py:134-135 | assigns `scm_repo_primary_branch_head_commit_date` and leaves every other field of the row as it was |
| Records.PipelineApp.SetScmRepoPrimaryBranchHeadCommitAuthor | checker/check.py:136-143 | assigns `scm_repo_primary_branch_head_commit_author`, the login or "N/A" and leaves every other field of the row as it was |
| Records.PipelineApp.SetScmRepoPrimaryBranchHeadCommitCommitter | checker/check.py:144-151 | assigns `scm_repo_primary_branch_head_commit_committer`, the login or "N/A" and leaves every other field of the row as it was |
| Records.PipelineEnv.SetConfigEnv | checker/check.py:160 | assigns `config_env`: the entry's `environment` and leaves every other field of the row as it was |
| Records.PipelineEnv.SetCfAppType | checker/check.py:161 | assigns `cf_app_type`: the entry's `type` and leaves every other field of the row as it was |
| Records.PipelineEnv.SetCfFullName | checker/check.py:169 | assigns `cf_full_name`: the entry's `app` path and leaves every other field of the row as it was |
| Records.PipelineEnv.SetCfOrgName | checker/check.py:179 | assigns `cf_org_name` and leaves every other field of the row as it was |
| Records.PipelineEnv.SetCfOrgGuid | checker/check.py:180-181 | assigns `cf_org_guid`, once per matching organization and leaves every other field of the row as it was |
| Records.PipelineEnv.SetCfSpaceName | checker/check.py:182 | assigns `cf_space_name` and leaves every other field of the row as it was |
| Records.PipelineEnv.SetCfSpaceGuid | checker/check.py:183-184 | assigns `cf_space_guid`, once per matching space and leaves every other field of the row as it was |
| Records.PipelineEnv.SetCfAppName | checker/check.py:185 | assigns `cf_app_name` and leaves every other field of the row as it was |
| Records.PipelineEnv.SetCfAppGuid | checker/check.py:186-187 | assigns `cf_app_guid`, once per matching app and leaves every other field of the row as it was |
| Records.PipelineEnv.SetCfAppGitBranch | checker/check.py:199 | assigns `cf_app_git_branch` and leaves every other field of the row as it was |
| Records.PipelineEnv.SetCfAppGitCommit | checker/check.py:200 | assigns `cf_app_git_commit` and leaves every other field of the row as it was |
| Records.PipelineEnv.SetCfCommitDate | checker/check.py:210 | assigns `cf_commit_date` and leaves every other field of the row as it was |
| Records.PipelineEnv.SetCfCommitAuthor | checker/check.py:211-213 | assigns `cf_commit_author` and leaves every other field of the row as it was |
| Records.PipelineEnv.SetCfCommitCount | checker/check.py:212 | assigns `cf_commit_count` and leaves every other field of the row as it was |
| Records.PipelineEnv.SetDriftTimeSimple | checker/check.py:216-217 | assigns `drift_time_simple` and leaves every other field of the row as it was |
| Records.PipelineEnv.SetGitCompareAheadBy | checker/check.py:221 | assigns `git_compare_ahead_by` and leaves every other field of the row as it was |
| Records.PipelineEnv.SetGitCompareBehindBy | checker/check.py:222 | assigns `git_compare_behind_by` and leaves every other field of the row as it was |
| Records.PipelineEnv.SetGitCompareMergeBaseCommit | checker/check.py:223-226 | assigns `git_compare_merge_base_commit` and leaves every other field of the row as it was |
| Records.PipelineEnv.SetGitCompareMergeBaseCommitDate | checker/check.py:225 | assigns `git_compare_merge_base_commit_date` and leaves every other field of the row as it was |
| Records.PipelineEnv.SetDriftTimeMergeBase | checker/check.py:228-229 | assigns `drift_time_merge_base` and leaves every other field of the row as it was |
| Records.PipelineEnv.SetLogMessage | checker/check.py:163 | assigns `log_message` (also assigned at lines 173, 191, 202 and 231) and leaves every other field of the row as it was |
| Check.SelectPrimaryBranch | checker/check.py:116-121 | the override loop yields "main" if the repository has it, else "master" if it has that, else the default branch |
| Check.ResolveEnvironment | checker/check.py:157-237 | resolving one environment on a fresh row writes exactly the record its staged resolution gives, or writes nothing when a call outside any `try` raised |
| Check.LookupAppInto | checker/check.py:178-194 | the org, space and app lookups, the guid check and everything after leave the row as the staged resolution gives, or report an abort |
| Check.AssignEachGuid | checker/check.py:180-187 | a guid loop leaves the field at the last match, and unchanged when there is none; no other field changes |
| Check.ReadDeployedRevisionInto | checker/check.py:196-205 | the row after reading `GIT_BRANCH` and `GIT_COMMIT` and the commit block, or an abort when `get_env` raised |
| Check.ReadCommitInto | checker/check.py:207-234 | success leaves the row fully resolved; a failure at any step keeps the fields assigned before it, exactly as the commit block gives |
| Check.ProcessPipeline | checker/check.py:78-239 | one declaration writes exactly the records its specification gives, and reports whether the run may go on |
| Check.ReadRepoStateInto | checker/check.py:105-151 | the application row after reading the repository, and the baseline, as `ReadRepoState` gives them |
| Check.ProcessEnvironments | checker/check.py:157-237 | the environment loop writes the records of `EnvsRun`, stopping at the first abort |
| Check.RunCheck | checker/check.py:75-239 | the whole run writes the records of every declaration that the YAML filter keeps, in order, until a call outside any `try` raises |
| Check.EnvsRunStopsAtAbort | checker/check.py:157-237 | after an abort, later environments change nothing |
| Check.FilesRunStopsAtAbort | checker/check.py:78-239 | after an abort, later declaration files change nothing |
| DriftLemmas.OneRecordPerEnvironment | checker/check.py:157-237 | each environment before the first abort writes exactly one record, in order, carrying the pipeline row and its own resolution; the run completes iff every environment wrote one |
| DriftLemmas.CompletesIffNoneAborts | checker/check.py:157-237 | the environment loop completes exactly when no environment hits a failing call outside any `try` |
| DriftLemmas.RejectedPipelineWritesOneRecord | checker/check.py:95-100 | a declaration whose cleaned `scm` lacks "uktrade" writes exactly one record with "Not a UKTRADE repo: <scm>" and no environment data, whatever GitHub and Cloud Foundry would answer |
| DriftLemmas.AcceptedPipelineWritesPerEnvironment | checker/check.py:95-237 | an accepted declaration whose repository reads succeed writes one record per environment on a completed run, each on the same baseline |
| Sequences.FlattenAppend | checker/check.py:78-239 | records of declarations written one after the other accumulate in order; the same step serves the reports of `run_github` |
| DriftLemmas.PerPipeline | checker/check.py:78-239 | one list of records per declaration file |
| DriftLemmas.WholeRunWritesEveryPipeline | checker/check.py:78-239 | the run completes iff every declaration completes, and then it has written every declaration's records in listing order |
| DriftLemmas.ReadCommitStaged | checker/check.py:207-234 | the commit block always writes a record, at exactly one of two stages: "Cannot read commit <sha>!" without merge-base drift exactly when one of its four GitHub calls raised or the deployed commit has no author (`CommitBlockFails`), otherwise fully resolved with both drifts |
| DriftLemmas.ReadDeployedRevisionStaged | checker/check.py:196-234 | a record written after the guid check has the shape of its stage |
| DriftLemmas.LookupAppStaged | checker/check.py:178-234 | a record written after the lookups has the org, space and app names as path segments 0, 1 and 2, and each guid the last match |
| DriftLemmas.ResolveEnvStaged | checker/check.py:157-237 | stage order: a wrong type stops before the path is read; a bad slash count stops before any lookup; a missing guid gives "Cannot read app ..."; missing `GIT_BRANCH`/`GIT_COMMIT` gives the "No SCM Branch ..." message; missing `GIT_BRANCH` or `GIT_COMMIT` is the only cause of that message; a commit-block failure, and only that, gives "Cannot read commit <sha>!"; a resolved record has `drift_time_simple` = deployed date − head date, a comparison from the head sha to the deployed sha, and `drift_time_merge_base` = merge-base date − head date |
| DriftLemmas.MissingCommitKeepsBranch | checker/check.py:199-205 | with `GIT_BRANCH` present and `GIT_COMMIT` missing, the record keeps the deployed branch |
| DriftLemmas.CompareFailureKeepsSimpleDrift | checker/check.py:207-234 | when `compare` fails, the record keeps `drift_time_simple` and gets the commit message |
| DriftLemmas.BaselineIsPrimaryHead | checker/check.py:106-151 | the baseline is the primary branch's head; a head commit without author or committer login records "N/A" and the read still succeeds |
| DriftLemmas.PrimaryBranchPreference | checker/check.py:115-121 | the primary branch is a branch of the repository or its default; it is "main" whenever "main" is listed, "master" whenever "master" is listed and "main" is not, and it is neither "main" nor "master" only when the repository has neither, and then it is the default |
| DriftLemmas.GateIsSubstringTest | checker/check.py:95-100 | a cleaned `scm` with "uktrade" anywhere in it, not only at its start, is not rejected: every record the declaration writes belongs to an environment and none carries the "Not a UKTRADE repo" message |
| DriftLemmas.StagesAreExclusive | checker/check.py:157-237 | a written environment record stopped at exactly one stage: no record fits the shapes of two stages |
| DriftLemmas.NoStageMessageIsNotOwner | checker/check.py:97-231 | no environment record, at any stage, carries the "Not a UKTRADE repo" message |
| DriftLemmas.MessagesDiffer | checker/check.py:97-231 | the rejection message differs from each per-environment failure message |
| GithubDrift.FirstGuid | checker/github.py:26-38 | the first match's guid, and `None` exactly when there is no match |
| GithubDrift.GetCfOrgGuid | checker/github.py:26-28 | raises iff the listing raises; otherwise the first matching organization's guid |
| GithubDrift.GetCfSpaceGuid | checker/github.py:31-33 | raises iff the listing raises; otherwise the first matching space's guid |
| GithubDrift.GetCfAppGuid | checker/github.py:36-38 | raises iff the listing raises; otherwise the first matching app's guid |
| GithubDrift.FirstAndLastMatch | checker/github.py:26-38 | the first-match lookups of `run_github` and the last-match loops of `run_check` agree iff there is no match or the first match is the last |
| GithubDrift.RejectedPipelineReportsRejection | checker/github.py:71-74 | a declaration whose cleaned `scm` lacks "uktrade" reports only the "Not a UKTRADE repo" warning for that `scm`, nothing about it is looked up, and the run goes on |
| GithubDrift.OneReportPerEnvironment | checker/github.py:99-138 | each environment before the first halt reports exactly once, in order; the loop completes iff every environment reported |
| GithubDrift.AcceptedPipelineReportsPerEnvironment | checker/github.py:77-138 | an accepted declaration reports its default head first, then one report per environment, and completes iff every environment reported |
| GithubDrift.InvalidPathReported | checker/github.py:105-107 | a path without exactly two "/" is reported before any Cloud Foundry lookup |
| GithubDrift.MissingMetadataReported | checker/github.py:123-130 | missing `GIT_BRANCH` or `GIT_COMMIT` is reported before the deployed commit is read |
| GithubDrift.ReportedEnvironmentContinues | checker/github.py:105-130 | an environment that is reported, skipped or not, lets the loop go on to the next one |
| GithubDrift.BaselineIsDefaultBranch | checker/github.py:80-96 | the baseline is the default branch's head, the branch list is never consulted, and an unreadable author is "N/A" |
| GithubDrift.DriftAgainstDefaultHead | checker/github.py:133-138 | drift = deployed commit date − default head date, with the deployed commit and its author as read; the logged days are that drift's floor in whole days, as `timedelta.days` gives |
| GithubCheck.GetCfAppEnvironments | checker/github.py:17-23 | succeeds iff the declaration decodes with an `environments` list whose every entry has `environment`; then one name per entry, in order |
| GithubCheck.ProcessEnvironment | checker/github.py:99-138 | one environment as written reports or halts exactly as `LegacyEnv` gives |
| GithubCheck.ProcessPipeline | checker/github.py:61-140 | one declaration as written reports exactly what `LegacyPipeline` gives |
| GithubCheck.LegacyEnvsRunStopsAtHalt | checker/github.py:99-138 | after a halt, later environments change nothing |
| GithubCheck.LegacyFilesRunStopsAtHalt | checker/github.py:61-140 | after a halt, later declaration files change nothing |
| GithubDrift.WholeGithubRunReportsEveryPipeline | checker/github.py:61-140 | the run completes iff every declaration completes, and then its reports are every declaration's reports in listing order |
| GithubCheck.RunGithub | checker/github.py:57-140 | the whole run reports, in order, what every declaration that the YAML filter keeps reports, until a call outside any `try` raises |

## Left out

- YAML decoding and fetching a declaration's content are one gateway function (`fetch`) returning a decoded `Config` or raising. A value of the wrong YAML type is not modelled: a missing key is `None` and raises where the source indexes it.
- GitHub and Cloud Foundry clients are gateway functions. Authentication, proxies, paging and the reading of the declaration repository itself (`get_repo(GIT_PIPELINE_REPO)`) are not modelled; the listing of its root is a parameter.
- Timestamps are integers counting seconds; `datetime.strptime` with `GIT_DATE_FORMAT` and its possible failure, `datetime.now()` and the `repo_scan_start_time` field (lines 83 and 89 of checker/check.py) are not modelled. `scan_start_time` is a parameter. Drifts are differences of integers, not `timedelta`s; where `run_github` logs `drift_time.days`, the report carries both the difference in seconds and its floor in days.
- `write_csv`, `write_headers`, `save()` and the ids they assign are persistence; `write_record` is modelled as appending `Record(app fields, env fields)` to the output, and the `config_id_fk` link is that pairing.
- Logging, including the logging side of `set_log_attribute` and its log-level argument, is not modelled; `run_github`'s outcome is modelled as the reports it logs.
- `exit()` at the end of `run_check` and `run_github` is process control.
- `cf.v3.apps.get` in `run_github` is modelled only as whether the app can be read (`appReadable`).
- Exceptions are modelled as one kind (`Raised`); the source's distinction between `AttributeError` and other exceptions for the head commit's author and committer changes only the log level.
- checker/models.py, the migrations, checker/views.py and the management command are not part of this model; the record fields mirror the names `run_check` assigns.
- Gateways are deterministic within a run: the same call with the same arguments gives the same reply. In the source, `get_cf_app_environments` fetches and decodes the declaration a second time (lines 19-20 of checker/github.py, called at line 77 after the first read at lines 66-67), and that second read could raise on its own or return different content; the model reads one `fetch(file)` for both.
- An unset record field is `None`. It stands for Django's empty default `""`, because the model's `CharField`s are not nullable (checker/models.py, e.g. lines 31, 35 and 47). This is why `DriftCheck.ShowGuid` renders `None` as `""` in "Cannot read app '<name>' with guid ''!" (line 191 of checker/check.py).
- Besides the reports in the trace, `run_github`'s info and debug lines (the START/END markers, the cleaned `scm`, the environment list, the org, space and app names) are not modelled.
