/** Reading the pipeline declarations: which files are declarations, the clean-up of the `scm`
    identifier, and the list of environment names. */
module PipelineConfig {
  import opened Wrappers
  import opened Text
  import opened Gateways

  /** The listed paths that contain ".yaml" anywhere, in listing order. */
  function YamlPaths(paths: seq<string>): seq<string>
    decreases |paths|
  {
    if paths == [] then []
    else
      var kept := YamlPaths(paths[..|paths| - 1]);
      if Contains(paths[|paths| - 1], ".yaml") then kept + [paths[|paths| - 1]] else kept
  }

  /** `get_pipeline_configs`: walk the listing of the repository root and keep the YAML paths. */
  method GetPipelineConfigs(paths: seq<string>) returns (yamlFiles: seq<string>)
    ensures yamlFiles == YamlPaths(paths)
  {
    yamlFiles := [];
    for i := 0 to |paths|
      invariant yamlFiles == YamlPaths(paths[..i])
    {
      assert paths[..i + 1][..i] == paths[..i];
      if Contains(paths[i], ".yaml") {
        yamlFiles := yamlFiles + [paths[i]];
      }
    }
    assert paths[..|paths|] == paths;
  }

  /** A path is kept exactly when it is listed and contains ".yaml"; nothing else is added. */
  lemma {:induction false} YamlPathsMembers(paths: seq<string>)
    ensures forall p :: p in YamlPaths(paths) <==> p in paths && Contains(p, ".yaml")
    ensures |YamlPaths(paths)| <= |paths|
    decreases |paths|
  {
    if paths != [] {
      var init := paths[..|paths| - 1];
      YamlPathsMembers(init);
      assert paths == init + [paths[|paths| - 1]];
    }
  }

  /** Keeping the YAML paths preserves their relative order: the kept paths of a listing extended
      by more entries begin with the kept paths of the original listing. */
  lemma {:induction false} YamlPathsPrefix(paths: seq<string>, more: seq<string>)
    ensures YamlPaths(paths + more) == YamlPaths(paths) + YamlPaths(more)
    decreases |more|
  {
    if more == [] {
      assert paths + more == paths;
    } else {
      var n := |more| - 1;
      YamlPathsPrefix(paths, more[..n]);
      assert (paths + more)[..|paths + more| - 1] == paths + more[..n];
      assert (paths + more)[|paths + more| - 1] == more[n];
    }
  }

  /** The `scm` value after removing every clean-up token in configured order. */
  function StripAll(scm: string, tokens: seq<string>): (r: string)
    ensures |r| <= |scm|
    decreases |tokens|
  {
    if tokens == [] then scm else Remove(StripAll(scm, tokens[..|tokens| - 1]), tokens[|tokens| - 1])
  }

  /** The clean-up loop: `scm = scm.replace(token, "")` for each configured token in turn. */
  method CleanScm(scm: string, tokens: seq<string>) returns (cleaned: string)
    ensures cleaned == StripAll(scm, tokens)
  {
    cleaned := scm;
    for i := 0 to |tokens|
      invariant cleaned == StripAll(scm, tokens[..i])
    {
      assert tokens[..i + 1][..i] == tokens[..i];
      cleaned := Remove(cleaned, tokens[i]);
    }
    assert tokens[..|tokens|] == tokens;
  }

  /** With no clean-up tokens configured the identifier is kept as declared; tokens that occur
      nowhere in it leave it unchanged too. */
  lemma {:induction false} StripAllAbsent(scm: string, tokens: seq<string>)
    requires forall k :: 0 <= k < |tokens| ==> !Contains(scm, tokens[k])
    ensures StripAll(scm, tokens) == scm
    decreases |tokens|
  {
    if tokens != [] {
      StripAllAbsent(scm, tokens[..|tokens| - 1]);
      RemoveAbsent(scm, tokens[|tokens| - 1]);
    }
  }

  /** The order of the clean-up tokens matters: "abb" cleaned with ["ab", "b"] gives "", with
      ["b", "ab"] gives "a". */
  lemma CleanupOrderMatters()
    ensures StripAll("abb", ["ab", "b"]) == ""
    ensures StripAll("abb", ["b", "ab"]) == "a"
  {
    assert ["ab", "b"][..1] == ["ab"] && ["b", "ab"][..1] == ["b"];
    assert ["ab"][..0] == [] && ["b"][..0] == [];
    assert StartsWith("abb", "ab") && "abb"[2..] == "b";
    assert StartsWith("b", "b") && "b"[1..] == "";
    assert Remove("abb", "ab") == "b";
    assert Remove("b", "b") == "";
    assert "abb"[..1] == "a" && "abb"[1..] == "bb" && "bb"[1..] == "b";
    assert Remove("abb", "b") == "a";
    assert Remove("a", "ab") == "a";
  }

  /** The declaration after the clean-up in `get_app_config_yaml`: only `scm` changes; a declaration
      without `scm` raises (KeyError) as soon as there is a token to remove. */
  function CleanConfig(raw: Config, tokens: seq<string>): (r: Reply<Config>)
    ensures r.Raised? <==> raw.scm.None? && tokens != []
    ensures r.Ok? ==> r.value.environments == raw.environments
    ensures r.Ok? ==> (r.value.scm.Some? <==> raw.scm.Some?)
    ensures r.Ok? && raw.scm.Some? ==> r.value.scm.value == StripAll(raw.scm.value, tokens)
  {
    match raw.scm
    case None => if tokens == [] then Ok(raw) else Raised
    case Some(scm) => Ok(raw.(scm := Some(StripAll(scm, tokens))))
  }

  /** `get_app_config_yaml` after decoding: `config["scm"] = config["scm"].replace(token, "")` for
      each configured token. */
  method GetAppConfigYaml(raw: Config, tokens: seq<string>) returns (r: Reply<Config>)
    ensures r == CleanConfig(raw, tokens)
  {
    if raw.scm.None? {
      if tokens == [] { r := Ok(raw); } else { r := Raised; }
      return;
    }
    var cleaned := CleanScm(raw.scm.value, tokens);
    r := Ok(raw.(scm := Some(cleaned)));
  }

  /** The declaration has an `environments` list whose every entry names its environment. */
  predicate NamesReadable(config: Config) {
    config.environments.Some? &&
    forall k :: 0 <= k < |config.environments.value| ==> config.environments.value[k].environment.Some?
  }

  /** `get_config_environment_names`: the `environment` of every entry, in order; a missing
      `environments` list or a missing `environment` key raises (KeyError). */
  method EnvironmentNames(config: Config) returns (r: Reply<seq<string>>)
    ensures r.Ok? <==> NamesReadable(config)
    ensures r.Ok? ==> (|r.value| == |config.environments.value| &&
      forall k :: 0 <= k < |r.value| ==> config.environments.value[k].environment == Some(r.value[k]))
  {
    if config.environments.None? {
      return Raised;
    }
    var entries := config.environments.value;
    var names: seq<string> := [];
    for i := 0 to |entries|
      invariant |names| == i
      invariant forall k :: 0 <= k < i ==> entries[k].environment == Some(names[k])
    {
      if entries[i].environment.None? {
        return Raised;
      }
      names := names + [entries[i].environment.value];
    }
    r := Ok(names);
  }
}
