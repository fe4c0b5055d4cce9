/** The decoded pipeline declarations and the remote services the checker reads. Each service call
    is a function that returns a value or raises; a listing that matches nothing is an empty `seq`. */
module Gateways {
  import opened Wrappers

  /** One entry of a declaration's `environments` list; a key absent from the YAML is `None`. */
  datatype EnvEntry = EnvEntry(environment: Option<string>, appType: Option<string>, app: Option<string>)

  /** A decoded pipeline declaration: the `scm` and `environments` keys the checker reads. */
  datatype Config = Config(scm: Option<string>, environments: Option<seq<EnvEntry>>)

  /** Repository metadata returned by `get_repo`. */
  datatype RepoMeta = RepoMeta(name: string, id: int, isPrivate: bool, archived: bool, defaultBranch: string)

  /** A commit: its `last_modified` time already parsed to whole seconds, and the logins of its
      author and committer, `None` when the commit has no linked account. */
  datatype Commit = Commit(date: int, authorLogin: Option<string>, committerLogin: Option<string>)

  /** The result of comparing a base commit with a head commit. */
  datatype Comparison = Comparison(aheadBy: nat, behindBy: nat, mergeBaseSha: string)

  /** The source-control hosting API, keyed by the repository's full name. */
  datatype GitHub = GitHub(
    getRepo: string -> Reply<RepoMeta>,
    branchNames: string -> Reply<seq<string>>,
    // (repo, branch) -> sha of the branch's head commit
    branchHead: (string, string) -> Reply<string>,
    // (repo, branch or sha) -> totalCount of get_commits
    commitCount: (string, string) -> Reply<nat>,
    // (repo, sha) -> the commit
    getCommit: (string, string) -> Reply<Commit>,
    // (repo, base sha, head sha) -> the comparison
    compare: (string, string, string) -> Reply<Comparison>)

  /** The Cloud Foundry v3 API: name lookups give the guids of every match, in listing order. */
  datatype CloudFoundry = CloudFoundry(
    // org name -> guids
    orgGuids: string -> Reply<seq<string>>,
    // (space name, org guid) -> guids
    spaceGuids: (string, Option<string>) -> Reply<seq<string>>,
    // (app name, space guid, org guid) -> guids
    appGuids: (string, Option<string>, Option<string>) -> Reply<seq<string>>,
    // apps.get(guid) succeeds
    appReadable: Option<string> -> bool,
    // apps.get_env(guid)["environment_variables"]
    appEnv: Option<string> -> Reply<map<string, string>>)
}
