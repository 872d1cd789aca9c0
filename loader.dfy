/**
  Loading a deployment file: the parsed document must be a mapping with
  exactly a `common` mapping and a `servers` list of mappings; every server
  entry, laid over `common`, is validated into a configuration and
  finalized, in order, and the first entry that does not validate aborts the
  whole load.
*/
module Loader {
  import opened Text
  import opened Values
  import opened Models

  /** The validated top level of a deployment file. */
  datatype DeploymentConfigFile = DeploymentConfigFile(common: Dict, servers: seq<Dict>)

  // ---------------------------------------------------------------------------
  // The top-level schema

  const RootMessage: string := "Input should be a valid dictionary or instance of DeploymentConfigFile"

  /** `common: dict[str, Any]`, required. */
  function CommonField(o: Option<Raw>): (r: Result<Dict, seq<Issue>>)
    ensures r.Ok? <==> o.Some? && o.value.RMap?
    ensures r.Ok? ==> r.value == o.value.entries
  {
    match o
    case None => Err([Issue([Key("common")], "Field required")])
    case Some(RMap(entries)) => Ok(entries)
    case Some(_) => Err([Issue([Key("common")], "Input should be a valid dictionary")])
  }

  /** One issue per entry of `items` (numbered from `start`) that is not a mapping. */
  function BadItems(items: seq<Raw>, start: nat): (r: seq<Issue>)
    ensures r == [] <==> forall k :: 0 <= k < |items| ==> items[k].RMap?
    ensures forall j :: 0 <= j < |r| ==>
              |r[j].loc| == 2 && r[j].loc[0] == Key("servers") && r[j].loc[1].Index?
              && start <= r[j].loc[1].i < start + |items| && !items[r[j].loc[1].i - start].RMap?
    decreases |items|
  {
    if items == [] then []
    else
      (if items[0].RMap? then [] else [Issue([Key("servers"), Index(start)], "Input should be a valid dictionary")])
      + BadItems(items[1..], start + 1)
  }

  /** `servers: list[dict[str, Any]]`, required. */
  function ServersField(o: Option<Raw>): (r: Result<seq<Dict>, seq<Issue>>)
    ensures r.Ok? <==> o.Some? && o.value.RList? && forall k :: 0 <= k < |o.value.items| ==> o.value.items[k].RMap?
    ensures r.Ok? ==> |r.value| == |o.value.items|
                      && forall k :: 0 <= k < |r.value| ==> o.value.items[k] == RMap(r.value[k])
  {
    match o
    case None => Err([Issue([Key("servers")], "Field required")])
    case Some(RList(items)) =>
      var bad := BadItems(items, 0);
      if bad == [] then Ok(seq(|items|, k requires 0 <= k < |items| => items[k].entries)) else Err(bad)
    case Some(_) => Err([Issue([Key("servers")], "Input should be a valid list")])
  }

  /** The only keys the top level of the file may hold. */
  const TopNames: seq<string> := ["common", "servers"]

  /** `DeploymentConfigFile.model_validate(parsed)`. */
  function ValidateDocument(doc: Raw): Result<DeploymentConfigFile, seq<Issue>> {
    if !doc.RMap? then Err([Issue([], RootMessage)])
    else
      var d := doc.entries;
      var common := CommonField(Get(d, "common"));
      var servers := ServersField(Get(d, "servers"));
      var extra := Unknown(Keys(d), TopNames);
      var extraIssues := seq(|extra|, k requires 0 <= k < |extra| => Issue([Key(extra[k])], "Extra inputs are not permitted"));
      if common.Ok? && servers.Ok? && extra == [] then Ok(DeploymentConfigFile(common.value, servers.value))
      else Err(Problems(common) + Problems(servers) + extraIssues)
  }

  // ---------------------------------------------------------------------------
  // Error messages

  function LocText(p: LocPart): string {
    match p
    case Key(name) => name
    case Index(i) => Decimal(i)
  }

  /** The dotted location of an issue, `<root>` when that is empty. */
  function Location(loc: seq<LocPart>): (r: string)
    ensures loc == [] ==> r == "<root>"
    ensures r != ""
  {
    var path := Join(".", seq(|loc|, k requires 0 <= k < |loc| => LocText(loc[k])));
    if path == "" then "<root>" else path
  }

  function Entry(issue: Issue): string {
    Location(issue.loc) + ": " + issue.msg
  }

  /** `_format_validation_error`: `location: message` per issue, separated by `; `. */
  function FormatIssues(issues: seq<Issue>): string {
    Join("; ", seq(|issues|, k requires 0 <= k < |issues| => Entry(issues[k])))
  }

  /** A message lists its issues one after the other. */
  lemma FormatShape(a: seq<Issue>, b: seq<Issue>, issue: Issue)
    ensures FormatIssues([issue]) == Entry(issue)
    ensures a != [] && b != [] ==> FormatIssues(a + b) == FormatIssues(a) + "; " + FormatIssues(b)
  {
    if a != [] && b != [] {
      var ea := seq(|a|, k requires 0 <= k < |a| => Entry(a[k]));
      var eb := seq(|b|, k requires 0 <= k < |b| => Entry(b[k]));
      assert seq(|a + b|, k requires 0 <= k < |a + b| => Entry((a + b)[k])) == ea + eb;
      JoinAppend("; ", ea, eb);
    }
  }

  // ---------------------------------------------------------------------------
  // create_server_config

  /** The server's `host` as shown in messages. */
  function HostLabel(server: Dict): string {
    match Get(server, "host")
    case None => "<unknown>"
    case Some(v) => Str(v)
  }

  function ServerMessage(server: Dict, issues: seq<Issue>): string {
    "Invalid server config for '" + HostLabel(server) + "': " + FormatIssues(issues)
  }

  /** The configuration of one server: `common` overridden key by key by the
      server entry, validated, then finalized. */
  function ServerConfig(server: Dict, common: Dict, loadEnv: string -> seq<(string, string)>): (r: Result<Settings, string>)
    ensures r.Ok? <==> Construct(common + server).Ok?
    ensures r.Ok? ==> WellFormed(r.value) && Finalize(r.value, loadEnv) == r.value
    ensures r.Err? ==> r == Err(ServerMessage(server, Construct(common + server).error))
  {
    match Construct(common + server)
    case Err(issues) => Err(ServerMessage(server, issues))
    case Ok(s) =>
      ValidatePreservesWellFormed(Default, common + server);
      FinalizePreservesWellFormed(s, loadEnv);
      FinalizeIdempotent(s, loadEnv);
      Ok(Finalize(s, loadEnv))
  }

  /** The merge is shallow and the server wins: a key the server names takes
      the server's value, any other key keeps `common`'s. */
  lemma ServerOverridesCommon(server: Dict, common: Dict, k: string)
    ensures Get(server, k).Some? ==> Get(common + server, k) == Get(server, k)
    ensures Get(server, k).None? ==> Get(common + server, k) == Get(common, k)
    ensures k in Keys(common + server) <==> k in Keys(common) || k in Keys(server)
  {
    MergeGet(common, server, k);
    KeysAreAssigned(common + server, k);
    KeysAreAssigned(common, k);
    KeysAreAssigned(server, k);
  }

  /** `PystranoConfig(**merged)` followed by `finalize_config()`. */
  method CreateServerConfig(server: Dict, common: Dict, loadEnv: string -> seq<(string, string)>)
    returns (r: Result<PystranoConfig, string>)
    ensures r.Ok? <==> ServerConfig(server, common, loadEnv).Ok?
    ensures r.Ok? ==> fresh(r.value) && r.value.fields == ServerConfig(server, common, loadEnv).value
    ensures r.Err? ==> r.error == ServerConfig(server, common, loadEnv).error
  {
    var merged := common + server;
    var created := PystranoConfig.Create(merged);
    if created.Err? {
      return Err(ServerMessage(server, created.error));
    }
    var config := created.value;
    config.FinalizeConfig(loadEnv);
    return Ok(config);
  }

  // ---------------------------------------------------------------------------
  // load_config

  function AtServer(path: string, index: nat, message: string): string {
    "Invalid deployment config '" + path + "' at servers[" + Decimal(index) + "]: " + message
  }

  /** The configurations in `results[i..]`, or the message of the first
      failure, naming its index. */
  function Collect(path: string, results: seq<Result<Settings, string>>, i: nat): (r: Result<seq<Settings>, string>)
    requires i <= |results|
    ensures r.Ok? <==> forall k :: i <= k < |results| ==> results[k].Ok?
    ensures r.Ok? ==> |r.value| == |results| - i
                      && forall k :: 0 <= k < |r.value| ==> r.value[k] == results[i + k].value
    decreases |results| - i
  {
    if i == |results| then Ok([])
    else
      match results[i]
      case Err(m) => Err(AtServer(path, i, m))
      case Ok(c) =>
        match Collect(path, results, i + 1)
        case Err(m) => Err(m)
        case Ok(rest) => Ok([c] + rest)
  }

  /** Every server's configuration, in order. */
  function Results(file: DeploymentConfigFile, loadEnv: string -> seq<(string, string)>): (r: seq<Result<Settings, string>>)
    ensures |r| == |file.servers|
    ensures forall k :: 0 <= k < |r| ==> r[k] == ServerConfig(file.servers[k], file.common, loadEnv)
  {
    seq(|file.servers|, k requires 0 <= k < |file.servers| => ServerConfig(file.servers[k], file.common, loadEnv))
  }

  /** The load of a validated file: every server's configuration in order,
      all or nothing. */
  function LoadFile(path: string, file: DeploymentConfigFile, loadEnv: string -> seq<(string, string)>): (r: Result<seq<Settings>, string>)
    ensures r.Ok? <==> file.servers != [] && forall k :: 0 <= k < |file.servers| ==> ServerConfig(file.servers[k], file.common, loadEnv).Ok?
    ensures r.Ok? ==> |r.value| == |file.servers|
                      && forall k :: 0 <= k < |r.value| ==> r.value[k] == ServerConfig(file.servers[k], file.common, loadEnv).value
  {
    if file.servers == [] then Err("Invalid deployment config '" + path + "': 'servers' must not be empty.")
    else Collect(path, Results(file, loadEnv), 0)
  }

  /** The load after parsing: `doc` is what the YAML parser returned, `None`
      for an empty file. */
  function LoadSpec(path: string, doc: Raw, loadEnv: string -> seq<(string, string)>): (r: Result<seq<Settings>, string>)
    ensures doc.RNone? ==> r.Err?
    ensures r.Ok? ==> ValidateDocument(doc).Ok? && r == LoadFile(path, ValidateDocument(doc).value, loadEnv)
  {
    if doc.RNone? then Err("Config file '" + path + "' is empty.")
    else
      match ValidateDocument(doc)
      case Err(issues) => Err("Invalid deployment config '" + path + "': " + FormatIssues(issues))
      case Ok(file) => LoadFile(path, file, loadEnv)
  }

  /** The first failure in `results[i..]` decides the message. */
  lemma {:induction false} CollectStopsAt(path: string, results: seq<Result<Settings, string>>, i: nat, j: nat)
    requires i <= j < |results|
    requires forall k :: i <= k < j ==> results[k].Ok?
    requires results[j].Err?
    ensures Collect(path, results, i) == Err(AtServer(path, j, results[j].error))
    decreases j - i
  {
    if i < j {
      CollectStopsAt(path, results, i + 1, j);
    }
  }

  /** A failure right after a run of successes decides the message. */
  lemma CollectStopsAfter(path: string, results: seq<Result<Settings, string>>, done: seq<Result<Settings, string>>)
    requires |done| < |results| && done == results[..|done|]
    requires forall k :: 0 <= k < |done| ==> done[k].Ok?
    requires results[|done|].Err?
    ensures Collect(path, results, 0) == Err(AtServer(path, |done|, results[|done|].error))
  {
    assert forall k :: 0 <= k < |done| ==> results[k] == done[k];
    CollectStopsAt(path, results, 0, |done|);
  }

  /** Loading is all or nothing: the first server entry that does not validate
      aborts the load with a message naming its index and its host. */
  lemma LoadStopsAtFirstBadServer(path: string, file: DeploymentConfigFile, loadEnv: string -> seq<(string, string)>, j: nat)
    requires j < |file.servers|
    requires forall k :: 0 <= k < j ==> ServerConfig(file.servers[k], file.common, loadEnv).Ok?
    requires ServerConfig(file.servers[j], file.common, loadEnv).Err?
    ensures LoadFile(path, file, loadEnv)
            == Err(AtServer(path, j, ServerConfig(file.servers[j], file.common, loadEnv).error))
  {
    var results := Results(file, loadEnv);
    CollectStopsAt(path, results, 0, j);
  }

  /** The top level is a mapping holding exactly a `common` mapping and a
      `servers` list of mappings. */
  predicate WellShaped(doc: Raw) {
    doc.RMap?
    && var common := Get(doc.entries, "common");
       var servers := Get(doc.entries, "servers");
       var keys := Keys(doc.entries);
       common.Some? && common.value.RMap?
       && servers.Some? && servers.value.RList?
       && (forall k :: 0 <= k < |servers.value.items| ==> servers.value.items[k].RMap?)
       && (forall k :: 0 <= k < |keys| ==> keys[k] == "common" || keys[k] == "servers")
  }

  lemma DocumentShape(doc: Raw)
    ensures ValidateDocument(doc).Ok? <==> WellShaped(doc)
    ensures ValidateDocument(doc).Ok? ==>
              var file := ValidateDocument(doc).value;
              var items := Get(doc.entries, "servers").value.items;
              RMap(file.common) == Get(doc.entries, "common").value
              && |file.servers| == |items|
              && forall k :: 0 <= k < |items| ==> items[k] == RMap(file.servers[k])
  {
    if doc.RMap? {
      UnknownEmpty(Keys(doc.entries), TopNames);
    }
  }

  /** A document that is not a mapping is rejected at the root. */
  lemma NotAMapping(path: string, doc: Raw, loadEnv: string -> seq<(string, string)>)
    requires !doc.RMap? && !doc.RNone?
    ensures LoadSpec(path, doc, loadEnv) == Err("Invalid deployment config '" + path + "': " + "<root>: " + RootMessage)
  {
    var issue := Issue([], RootMessage);
    assert ValidateDocument(doc) == Err([issue]);
    var tail := "<root>: " + RootMessage;
    assert Entry(issue) == tail by {
      assert Location([]) == "<root>";
      assert "<root>" + ": " == "<root>: ";
    }
    FormatShape([], [], issue);
    var head := "Invalid deployment config '" + path + "': ";
    assert LoadSpec(path, doc, loadEnv) == Err(head + tail);
    assert head + tail == head + "<root>: " + RootMessage;
  }

  /** The loop of `load_config`: each server entry in turn, stopping at the
      first that fails. */
  method CreateAll(path: string, file: DeploymentConfigFile, loadEnv: string -> seq<(string, string)>)
    returns (r: Result<seq<PystranoConfig>, string>)
    ensures Collect(path, Results(file, loadEnv), 0).Err? ==> r == Err(Collect(path, Results(file, loadEnv), 0).error)
    ensures Collect(path, Results(file, loadEnv), 0).Ok? ==>
              r.Ok? && |r.value| == |file.servers|
              && forall k :: 0 <= k < |r.value| ==> fresh(r.value[k]) && r.value[k].fields == Results(file, loadEnv)[k].value
  {
    ghost var results := Results(file, loadEnv);
    ghost var outcomes: seq<Result<Settings, string>> := [];
    var configs: seq<PystranoConfig> := [];
    for i := 0 to |file.servers|
      invariant |configs| == |outcomes| == i
      invariant outcomes == results[..i]
      invariant forall k :: 0 <= k < i ==> outcomes[k].Ok? && fresh(configs[k]) && configs[k].fields == outcomes[k].value
    {
      var created := CreateServerConfig(file.servers[i], file.common, loadEnv);
      ghost var outcome := ServerConfig(file.servers[i], file.common, loadEnv);
      assert results[i] == outcome;
      if created.Err? {
        CollectStopsAfter(path, results, outcomes);
        return Err(AtServer(path, i, created.error));
      }
      TakeOneMore(results, i);
      outcomes := outcomes + [outcome];
      configs := configs + [created.value];
    }
    assert results == outcomes;
    return Ok(configs);
  }

  /** `load_config` after parsing: one finalized configuration object per
      server entry, in order, or the message of the first failure. */
  method LoadConfig(path: string, doc: Raw, loadEnv: string -> seq<(string, string)>)
    returns (r: Result<seq<PystranoConfig>, string>)
    ensures LoadSpec(path, doc, loadEnv).Err? ==> r == Err(LoadSpec(path, doc, loadEnv).error)
    ensures LoadSpec(path, doc, loadEnv).Ok? ==>
              r.Ok? && |r.value| == |LoadSpec(path, doc, loadEnv).value|
              && forall k :: 0 <= k < |r.value| ==> fresh(r.value[k]) && r.value[k].fields == LoadSpec(path, doc, loadEnv).value[k]
  {
    if doc.RNone? {
      return Err("Config file '" + path + "' is empty.");
    }
    var validated := ValidateDocument(doc);
    if validated.Err? {
      return Err("Invalid deployment config '" + path + "': " + FormatIssues(validated.error));
    }
    var file := validated.value;
    if file.servers == [] {
      return Err("Invalid deployment config '" + path + "': 'servers' must not be empty.");
    }
    assert LoadSpec(path, doc, loadEnv) == LoadFile(path, file, loadEnv) == Collect(path, Results(file, loadEnv), 0);
    r := CreateAll(path, file, loadEnv);
  }
}
