/** `run_github` as checker/github.py runs it: loops that reassign the cleaned `scm`, append the
    environment names, and walk the environments with `continue` on each failing step. Each method
    is proved to report exactly what its specification in `GithubDrift` gives. */
module GithubCheck {
  import opened Wrappers
  import opened Text
  import opened Gateways
  import opened PipelineConfig
  import opened DriftCheck
  import opened GithubDrift

  /** `get_cf_app_environments` (lines 17-23): decode the declaration again and list the
      `environment` of every entry, in order; a missing key raises. */
  method GetCfAppEnvironments(fetch: string -> Reply<Config>, file: string) returns (r: Reply<seq<string>>)
    ensures r.Ok? <==> fetch(file).Ok? && NamesReadable(fetch(file).value)
    ensures r.Ok? ==> (|r.value| == |fetch(file).value.environments.value| &&
      forall k :: 0 <= k < |r.value| ==> fetch(file).value.environments.value[k].environment == Some(r.value[k]))
  {
    var config := fetch(file);
    if config.Raised? {
      return Raised;
    }
    r := EnvironmentNames(config.value);
  }

  /** Lines 99-138: one environment, reported or halting the run. This is the statement-by-statement
      body of the environment loop; `LegacyEnv` is its specification, and the properties are proved
      about that function in `GithubDrift`. */
  method ProcessEnvironment(h: Head, entry: EnvEntry, gh: GitHub, cf: CloudFoundry) returns (outcome: Outcome)
    ensures outcome == LegacyEnv(h, entry, gh, cf)
  {
    if entry.app.None? {
      return Halted;
    }
    var path := entry.app.value;
    if Occurrences(path, "/") != 2 {
      return Reported(InvalidAppPath(path));
    }
    SplitPieces(path, '/');
    var parts := Split(path, '/');
    var org := GetCfOrgGuid(cf, parts[0]);
    if org.Raised? {
      return Halted;
    }
    var space := GetCfSpaceGuid(cf, org.value, parts[1]);
    if space.Raised? {
      return Halted;
    }
    var app := GetCfAppGuid(cf, org.value, space.value, parts[2]);
    if app.Raised? {
      return Halted;
    }
    if !cf.appReadable(app.value) {
      return Reported(AppUnreadable(app.value));
    }
    var vars := cf.appEnv(app.value);
    if vars.Raised? {
      return Halted;
    }
    if "GIT_BRANCH" !in vars.value || "GIT_COMMIT" !in vars.value {
      return Reported(NoScmMetadata);
    }
    var branch := vars.value["GIT_BRANCH"];
    var sha := vars.value["GIT_COMMIT"];
    var commit := gh.getCommit(h.scm, sha);
    if commit.Raised? || commit.value.authorLogin.None? {
      return Halted;
    }
    outcome := Reported(Drift(branch, sha, commit.value.date, commit.value.authorLogin.value, commit.value.date - h.date, (commit.value.date - h.date) / SecondsPerDay));
  }

  /** Lines 63-140: one pipeline declaration file. */
  method ProcessPipeline(file: string, tokens: seq<string>, fetch: string -> Reply<Config>, gh: GitHub, cf: CloudFoundry)
    returns (reports: seq<Report>, completed: bool)
    ensures Trace(reports, completed) == LegacyPipeline(file, tokens, fetch, gh, cf)
  {
    var config := fetch(file);
    if config.Raised? || config.value.scm.None? {
      return [], false;
    }
    var scm := CleanScm(config.value.scm.value, tokens);
    if !Contains(scm, Owner) {
      return [NotOwner(scm)], true;
    }
    var names := GetCfAppEnvironments(fetch, file);
    if names.Raised? {
      return [], false;
    }

    var meta := gh.getRepo(scm);
    if meta.Raised? {
      return [], false;
    }
    var branch := meta.value.defaultBranch;
    var sha := gh.branchHead(scm, branch);
    if sha.Raised? {
      return [], false;
    }
    var count := gh.commitCount(scm, branch);
    if count.Raised? {
      return [], false;
    }
    var head := gh.getCommit(scm, sha.value);
    if head.Raised? {
      return [], false;
    }
    var author := LoginOrNA(head.value.authorLogin);
    var h := Head(scm, head.value.date);

    var entries := config.value.environments.value;
    reports, completed := [DefaultHead(scm, branch, sha.value, count.value, head.value.date, author)], true;
    var envReports: seq<Report> := [];
    var i := 0;
    while i < |entries| && completed
      invariant 0 <= i <= |entries|
      invariant reports == [DefaultHead(scm, branch, sha.value, count.value, head.value.date, author)] + envReports
      invariant Trace(envReports, completed) == LegacyEnvsRun(h, entries[..i], gh, cf)
    {
      assert entries[..i + 1][..i] == entries[..i];
      var outcome := ProcessEnvironment(h, entries[i], gh, cf);
      if outcome.Halted? {
        completed := false;
      } else {
        envReports := envReports + [outcome.report];
        reports := reports + [outcome.report];
      }
      i := i + 1;
    }
    LegacyEnvsRunStopsAtHalt(h, entries, i, gh, cf);
  }

  /** Once the environment loop has halted, the later entries change nothing. */
  lemma {:induction false} LegacyEnvsRunStopsAtHalt(h: Head, entries: seq<EnvEntry>, n: nat, gh: GitHub, cf: CloudFoundry)
    requires n <= |entries|
    requires n < |entries| ==> !LegacyEnvsRun(h, entries[..n], gh, cf).completed
    ensures LegacyEnvsRun(h, entries, gh, cf) == LegacyEnvsRun(h, entries[..n], gh, cf)
    decreases |entries| - n
  {
    if n == |entries| {
      assert entries[..n] == entries;
    } else {
      assert entries[..n + 1][..n] == entries[..n];
      LegacyEnvsRunStopsAtHalt(h, entries, n + 1, gh, cf);
    }
  }

  /** Once the pipeline loop has halted, the later files change nothing. */
  lemma {:induction false} LegacyFilesRunStopsAtHalt(files: seq<string>, n: nat, tokens: seq<string>,
                                                     fetch: string -> Reply<Config>, gh: GitHub, cf: CloudFoundry)
    requires n <= |files|
    requires n < |files| ==> !LegacyFilesRun(files[..n], tokens, fetch, gh, cf).completed
    ensures LegacyFilesRun(files, tokens, fetch, gh, cf) == LegacyFilesRun(files[..n], tokens, fetch, gh, cf)
    decreases |files| - n
  {
    if n == |files| {
      assert files[..n] == files;
    } else {
      assert files[..n + 1][..n] == files[..n];
      LegacyFilesRunStopsAtHalt(files, n + 1, tokens, fetch, gh, cf);
    }
  }

  /** `run_github` (lines 57-140): every declaration file in listing order, until a call outside any
      `try` raises. */
  method RunGithub(listing: seq<string>, tokens: seq<string>, fetch: string -> Reply<Config>, gh: GitHub, cf: CloudFoundry)
    returns (reports: seq<Report>, completed: bool)
    ensures Trace(reports, completed) == GithubRun(listing, tokens, fetch, gh, cf)
  {
    var files := GetPipelineConfigs(listing);
    reports, completed := [], true;
    var i := 0;
    while i < |files| && completed
      invariant 0 <= i <= |files|
      invariant Trace(reports, completed) == LegacyFilesRun(files[..i], tokens, fetch, gh, cf)
    {
      assert files[..i + 1][..i] == files[..i];
      var pipelineReports, pipelineCompleted := ProcessPipeline(files[i], tokens, fetch, gh, cf);
      reports := reports + pipelineReports;
      completed := pipelineCompleted;
      i := i + 1;
    }
    LegacyFilesRunStopsAtHalt(files, i, tokens, fetch, gh, cf);
  }
}
