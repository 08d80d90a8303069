/**
 * The OpenAI-compatible model list (core/http/endpoints/openai/list.go): the
 * configured models first, then the loose model files that no configuration
 * already refers to, both filtered by an optional regular expression.
 *
 * Regular expressions are outside the model: `compile` stands for
 * regexp.Compile and returns the compiled pattern's MatchString.
 */
module ModelListing {
  import opened Wrappers
  import opened Config

  datatype OpenAIModel = OpenAIModel(id: string, objectType: string)

  /** The JSON envelope of the response. */
  datatype ModelList = ModelList(objectType: string, data: seq<OpenAIModel>)

  /** regexp.Compile: the pattern's matcher, or the compile error. */
  type Compile = string -> Result<string -> bool, string>

  /** The name filter: everything when no filter is given, the compiled regular expression otherwise. */
  function FilterFn(filter: string, compile: Compile): (r: Result<string -> bool, string>)
    ensures filter == "" ==> r.Success? && forall name :: r.value(name)
    ensures filter != "" ==> (r.Success? <==> compile(filter).Success?)
    ensures filter != "" && r.Failure? ==> r.error == compile(filter).error
    ensures filter != "" && r.Success? ==> r.value == compile(filter).value
  {
    if filter == "" then Success(_ => true)
    else
      match compile(filter)
      case Failure(e) => Failure(e)
      case Success(matchString) => Success(matchString)
  }

  /** The model files the configurations refer to. */
  function ConfiguredModels(configs: seq<BackendConfig>): set<string> {
    set c | c in configs :: c.model
  }

  /** The entries for the configurations, in order: those whose name passes the filter. */
  function ConfiguredEntries(configs: seq<BackendConfig>, accept: string -> bool): seq<OpenAIModel> {
    if configs == [] then []
    else
      var last := configs[|configs| - 1];
      ConfiguredEntries(configs[..|configs| - 1], accept)
        + (if accept(last.name) then [OpenAIModel(last.name, "model")] else [])
  }

  /** The entries for the loose files, in order: those not excluded that pass the filter. */
  function LooseEntries(files: seq<string>, excluded: set<string>, accept: string -> bool): seq<OpenAIModel> {
    if files == [] then []
    else
      var last := files[|files| - 1];
      LooseEntries(files[..|files| - 1], excluded, accept)
        + (if last !in excluded && accept(last) then [OpenAIModel(last, "model")] else [])
  }

  /** The listing: configured entries, then loose files; loose files that a configuration
      refers to are left out when `excludeConfigured` holds. */
  function Listing(configs: seq<BackendConfig>, files: seq<string>, accept: string -> bool, excludeConfigured: bool): seq<OpenAIModel> {
    ConfiguredEntries(configs, accept)
      + LooseEntries(files, if excludeConfigured then ConfiguredModels(configs) else {}, accept)
  }

  /** The handler's computation, given the loose files from the model loader (or its error),
      the `filter` query parameter and the `excludeConfigured` parameter (None when absent). */
  method ListModels(configs: seq<BackendConfig>, models: Result<seq<string>, string>, filter: string, compile: Compile, excludeConfiguredParam: Option<bool>)
    returns (r: Result<ModelList, string>)
    ensures models.Failure? ==> r == Failure(models.error)
    ensures models.Success? && filter != "" && compile(filter).Failure? ==> r == Failure(compile(filter).error)
    ensures r.Success? <==> models.Success? && FilterFn(filter, compile).Success?
    ensures r.Success? ==> r.value == ModelList("list", Listing(configs, models.value, FilterFn(filter, compile).value, excludeConfiguredParam.GetOr(true)))
  {
    if models.Failure? {
      return Failure(models.error);
    }
    var mm: set<string> := {};
    var dataModels: seq<OpenAIModel> := [];

    var filterFn: string -> bool;
    if filter == "" {
      filterFn := _ => true;
    } else {
      var rxp := compile(filter);
      if rxp.Failure? {
        return Failure(rxp.error);
      }
      filterFn := rxp.value;
    }
    assert FilterFn(filter, compile).Success? && FilterFn(filter, compile).value == filterFn;

    // By default, loose files already referred to by a configuration are left out.
    var excludeConfigured := excludeConfiguredParam.GetOr(true);

    for k := 0 to |configs|
      invariant mm == if excludeConfigured then ConfiguredModels(configs[..k]) else {}
      invariant dataModels == ConfiguredEntries(configs[..k], filterFn)
    {
      var c := configs[k];
      if excludeConfigured {
        mm := mm + {c.model};
      }
      if filterFn(c.name) {
        dataModels := dataModels + [OpenAIModel(c.name, "model")];
      }
      assert configs[..k + 1][..k] == configs[..k];
    }
    assert configs[..|configs|] == configs;

    var files := models.value;
    ghost var configured := dataModels;
    for k := 0 to |files|
      invariant dataModels == configured + LooseEntries(files[..k], mm, filterFn)
    {
      var m := files[k];
      if m !in mm && filterFn(m) {
        dataModels := dataModels + [OpenAIModel(m, "model")];
      }
      assert files[..k + 1][..k] == files[..k];
    }
    assert files[..|files|] == files;

    return Success(ModelList("list", dataModels));
  }

  /** Every configured entry comes from a configuration whose name passes the filter, and
      every such configuration has its entry. */
  lemma {:induction false} ConfiguredEntriesExact(configs: seq<BackendConfig>, accept: string -> bool)
    ensures forall e :: e in ConfiguredEntries(configs, accept) ==>
      e.objectType == "model" && accept(e.id) && exists c :: c in configs && c.name == e.id
    ensures forall c :: c in configs && accept(c.name) ==> OpenAIModel(c.name, "model") in ConfiguredEntries(configs, accept)
    ensures |ConfiguredEntries(configs, accept)| <= |configs|
  {
    if configs != [] {
      var init := configs[..|configs| - 1];
      ConfiguredEntriesExact(init, accept);
      assert configs == init + [configs[|configs| - 1]];
    }
  }

  /** Every loose entry is a file that passes the filter and is not excluded, and every
      such file has its entry. */
  lemma {:induction false} LooseEntriesExact(files: seq<string>, excluded: set<string>, accept: string -> bool)
    ensures forall e :: e in LooseEntries(files, excluded, accept) ==>
      e.objectType == "model" && e.id in files && e.id !in excluded && accept(e.id)
    ensures forall f :: f in files && f !in excluded && accept(f) ==> OpenAIModel(f, "model") in LooseEntries(files, excluded, accept)
    ensures |LooseEntries(files, excluded, accept)| <= |files|
  {
    if files != [] {
      var init := files[..|files| - 1];
      LooseEntriesExact(init, excluded, accept);
      assert files == init + [files[|files| - 1]];
    }
  }

  /** The configured entries come first, in configuration order; every entry after them is a
      loose file, so no configured entry follows a loose one. */
  lemma ConfiguredEntriesComeFirst(configs: seq<BackendConfig>, files: seq<string>, accept: string -> bool, excludeConfigured: bool)
    ensures Listing(configs, files, accept, excludeConfigured)[..|ConfiguredEntries(configs, accept)|] == ConfiguredEntries(configs, accept)
    ensures forall i :: |ConfiguredEntries(configs, accept)| <= i < |Listing(configs, files, accept, excludeConfigured)| ==>
      Listing(configs, files, accept, excludeConfigured)[i].id in files
  {
    var excluded := if excludeConfigured then ConfiguredModels(configs) else {};
    var loose := LooseEntries(files, excluded, accept);
    LooseEntriesExact(files, excluded, accept);
    forall i | |ConfiguredEntries(configs, accept)| <= i < |Listing(configs, files, accept, excludeConfigured)|
      ensures Listing(configs, files, accept, excludeConfigured)[i].id in files
    {
      assert Listing(configs, files, accept, excludeConfigured)[i] == loose[i - |ConfiguredEntries(configs, accept)|];
    }
  }

  /** With exclusion on, a loose file that some configuration names as its model is never
      listed as a loose file, whether or not that configuration's name passes the filter. */
  lemma ExcludedFilesNeverListed(configs: seq<BackendConfig>, files: seq<string>, accept: string -> bool)
    ensures forall c, e :: c in configs && e in LooseEntries(files, ConfiguredModels(configs), accept) ==> e.id != c.model
  {
    LooseEntriesExact(files, ConfiguredModels(configs), accept);
  }

  /** With exclusion off, every loose file that passes the filter is listed. */
  lemma EveryAcceptedFileListedWithoutExclusion(configs: seq<BackendConfig>, files: seq<string>, accept: string -> bool)
    ensures forall f :: f in files && accept(f) ==> OpenAIModel(f, "model") in Listing(configs, files, accept, false)
  {
    LooseEntriesExact(files, {}, accept);
  }

  /** Every entry is a model object, and there are at most as many entries as configurations
      and loose files together. */
  lemma ListingShape(configs: seq<BackendConfig>, files: seq<string>, accept: string -> bool, excludeConfigured: bool)
    ensures forall e :: e in Listing(configs, files, accept, excludeConfigured) ==> e.objectType == "model" && accept(e.id)
    ensures |Listing(configs, files, accept, excludeConfigured)| <= |configs| + |files|
  {
    var excluded := if excludeConfigured then ConfiguredModels(configs) else {};
    ConfiguredEntriesExact(configs, accept);
    LooseEntriesExact(files, excluded, accept);
  }
}
