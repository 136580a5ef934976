/**
 * The hub's MCP configuration: the files it looks for, in order, and how the first one
 * that exists is turned into a list of server definitions.
 *
 * The file system is a map from path to what reading and parsing the file gives; a path
 * exists exactly when it is a key. `expanduser` and Python's `repr` of a float, list or
 * object are parameters.
 */
module McpConfig {
  import opened Wrappers
  import opened Json
  import opened Text

  /** A server definition. The command is whatever truthy value the file gives. */
  datatype McpServer = McpServer(id: string, command: Json, args: seq<string>, env: seq<(string, string)>)

  /** A file on disk: JSON that parsed, or text the parser rejected with a message. */
  datatype FileContent = Parsed(data: Json) | Unparseable(parseError: string)

  /**
   * How loading ended: the servers, an `McpConfigError` with its message, or an exception
   * Python raises on a value of the wrong type, with its message.
   */
  datatype LoadResult = Loaded(servers: seq<McpServer>) | ConfigError(message: string) | Crash(message: string)

  /** How one `mcpServers` entry is read. */
  datatype ServerOutcome = ServerParsed(server: McpServer) | MissingCommand | ServerCrash(message: string)

  /** `_candidate_paths`: `MCP_CONFIG_PATH` (expanded) only when set, then the two project files. */
  function CandidatePaths(envPath: Option<string>, projectRoot: string, expandUser: string -> string): (r: seq<string>)
    ensures envPath.Some? ==> |r| == 3 && r[0] == expandUser(envPath.value)
    ensures envPath.None? ==> |r| == 2
    ensures r[|r| - 2] == projectRoot + "/.cursor/mcp.json" && r[|r| - 1] == projectRoot + "/config/mcp-agents.json"
  {
    var defaults := [projectRoot + "/.cursor/mcp.json", projectRoot + "/config/mcp-agents.json"];
    if envPath.Some? then [expandUser(envPath.value)] + defaults else defaults
  }

  function InvalidJsonMessage(path: string, parseError: string): string {
    "Invalid MCP config JSON in " + path + ": " + parseError
  }

  function MissingCommandMessage(serverId: string, path: string): string {
    "MCP server '" + serverId + "' in " + path + " is missing 'command'"
  }

  /** The TypeError of iterating over a value that is not iterable. */
  function NotIterableMessage(j: Json): string {
    "'" + PyTypeName(j) + "' object is not iterable"
  }

  /** Python's `str()` of a parsed value. */
  function PyStr(j: Json, reprOf: Json -> string): string {
    match j
    case JStr(s) => s
    case JInt(i) => IntToString(i)
    case JBool(b) => if b then "True" else "False"
    case JNull => "None"
    case _ => reprOf(j)
  }

  /** `[str(arg) for arg in args]`: a list's elements, a string's characters, an object's keys. */
  function ArgStrings(args: Json, reprOf: Json -> string): (r: Option<seq<string>>)
    ensures r.None? <==> !(args.JArr? || args.JStr? || args.JObj?)
    ensures args.JArr? ==> (|r.value| == |args.items| &&
      forall i :: 0 <= i < |args.items| ==> r.value[i] == PyStr(args.items[i], reprOf))
    ensures args.JStr? ==> (|r.value| == |args.s| && forall i :: 0 <= i < |args.s| ==> r.value[i] == [args.s[i]])
    ensures args.JObj? ==> (|r.value| == |args.fields| &&
      forall i :: 0 <= i < |args.fields| ==> r.value[i] == args.fields[i].0)
  {
    match args
    case JArr(items) => Some(seq(|items|, i requires 0 <= i < |items| => PyStr(items[i], reprOf)))
    case JStr(s) => Some(seq(|s|, i requires 0 <= i < |s| => [s[i]]))
    case JObj(fields) => Some(seq(|fields|, i requires 0 <= i < |fields| => fields[i].0))
    case _ => None
  }

  /** `{k: str(v) for k, v in env.items()}`, or `None` when `env` has no `items`. */
  function EnvStrings(env: Json, reprOf: Json -> string): (r: Option<seq<(string, string)>>)
    ensures r.Some? <==> env.JObj?
    ensures env.JObj? ==> (|r.value| == |env.fields| &&
      forall i :: 0 <= i < |env.fields| ==> r.value[i] == (env.fields[i].0, PyStr(env.fields[i].1, reprOf)))
  {
    match env
    case JObj(fields) => Some(seq(|fields|, i requires 0 <= i < |fields| => (fields[i].0, PyStr(fields[i].1, reprOf))))
    case _ => None
  }

  /**
   * One `mcpServers` entry: the config must be an object; a missing or falsy `command` is an
   * error; `args` defaults to [] and `env` to {}, and every value is turned into a string.
   */
  function ParseServer(serverId: string, config: Json, reprOf: Json -> string): (r: ServerOutcome)
    ensures !config.JObj? ==> r == ServerCrash(NoAttributeMessage(config, "get"))
    ensures config.JObj? ==> (r == MissingCommand <==> !Truthy(Lookup(config.fields, "command").GetOr(JNull)))
    ensures r.ServerParsed? ==> (config.JObj? && r.server.id == serverId &&
      Lookup(config.fields, "command") == Some(r.server.command) && Truthy(r.server.command))
    ensures r.ServerParsed? ==>
      (Lookup(config.fields, "args").None? ==> r.server.args == []) &&
      (Lookup(config.fields, "env").None? ==> r.server.env == [])
    ensures config.JObj? && Truthy(Lookup(config.fields, "command").GetOr(JNull)) ==>
      (r.ServerParsed? <==>
        ArgStrings(Lookup(config.fields, "args").GetOr(JArr([])), reprOf).Some? &&
        EnvStrings(Lookup(config.fields, "env").GetOr(JObj([])), reprOf).Some?)
  {
    if !config.JObj? then ServerCrash(NoAttributeMessage(config, "get"))
    else
      var command := Lookup(config.fields, "command").GetOr(JNull);
      if !Truthy(command) then MissingCommand
      else
        var args := Lookup(config.fields, "args").GetOr(JArr([]));
        var env := Lookup(config.fields, "env").GetOr(JObj([]));
        match ArgStrings(args, reprOf)
        case None => ServerCrash(NotIterableMessage(args))
        case Some(argStrings) =>
          match EnvStrings(env, reprOf)
          case None => ServerCrash(NoAttributeMessage(env, "items"))
          case Some(envStrings) => ServerParsed(McpServer(serverId, command, argStrings, envStrings))
  }

  /** The load result an entry that could not be read stands for. */
  function FailureOf(outcome: ServerOutcome, serverId: string, path: string): LoadResult
    requires !outcome.ServerParsed?
  {
    match outcome
    case MissingCommand => ConfigError(MissingCommandMessage(serverId, path))
    case ServerCrash(message) => Crash(message)
  }

  /** Each `mcpServers` entry's id with how it is read. */
  function Outcomes(entries: seq<(string, Json)>, reprOf: Json -> string): (r: seq<(string, ServerOutcome)>)
    ensures |r| == |entries|
    ensures forall j :: 0 <= j < |entries| ==> r[j] == (entries[j].0, ParseServer(entries[j].0, entries[j].1, reprOf))
  {
    seq(|entries|, j requires 0 <= j < |entries| => (entries[j].0, ParseServer(entries[j].0, entries[j].1, reprOf)))
  }

  /** All entries in order: one server per entry, or the failure of the first entry that fails. */
  predicate LoadsAsListed(outcomes: seq<(string, ServerOutcome)>, path: string, r: LoadResult) {
    && (r.Loaded? <==> forall j :: 0 <= j < |outcomes| ==> outcomes[j].1.ServerParsed?)
    && (r.Loaded? ==> (|r.servers| == |outcomes| &&
      forall j :: 0 <= j < |outcomes| ==> outcomes[j].1 == ServerParsed(r.servers[j])))
    && (!r.Loaded? ==> exists k ::
      && 0 <= k < |outcomes|
      && (forall j :: 0 <= j < k ==> outcomes[j].1.ServerParsed?)
      && !outcomes[k].1.ServerParsed?
      && r == FailureOf(outcomes[k].1, outcomes[k].0, path))
  }

  /** The loop over the entries, which `LoadsAsListed` describes. */
  function Collect(outcomes: seq<(string, ServerOutcome)>, path: string): (r: LoadResult)
    ensures LoadsAsListed(outcomes, path, r)
  {
    if outcomes == [] then Loaded([])
    else if !outcomes[0].1.ServerParsed? then
      FailureOf(outcomes[0].1, outcomes[0].0, path)
    else
      var rest := Collect(outcomes[1..], path);
      CollectStep(outcomes, path, rest);
      if rest.Loaded? then Loaded([outcomes[0].1.server] + rest.servers) else rest
  }

  /** A parsed first entry puts its server in front, or lets the failure of a later entry through. */
  lemma CollectStep(outcomes: seq<(string, ServerOutcome)>, path: string, rest: LoadResult)
    requires outcomes != [] && outcomes[0].1.ServerParsed?
    requires LoadsAsListed(outcomes[1..], path, rest)
    ensures LoadsAsListed(outcomes, path, if rest.Loaded? then Loaded([outcomes[0].1.server] + rest.servers) else rest)
  {
    assert forall j :: 1 <= j < |outcomes| ==> outcomes[1..][j - 1] == outcomes[j];
    if rest.Loaded? {
      var servers := [outcomes[0].1.server] + rest.servers;
      assert forall j :: 1 <= j < |servers| ==> servers[j] == rest.servers[j - 1];
    } else {
      var k :| 0 <= k < |outcomes| - 1 &&
        (forall j :: 0 <= j < k ==> outcomes[1..][j].1.ServerParsed?) &&
        !outcomes[1..][k].1.ServerParsed? &&
        rest == FailureOf(outcomes[1..][k].1, outcomes[1..][k].0, path);
      assert forall j :: 0 <= j < k + 1 ==> outcomes[j].1.ServerParsed?;
      assert !outcomes[k + 1].1.ServerParsed? && rest == FailureOf(outcomes[k + 1].1, outcomes[k + 1].0, path);
    }
  }

  /** The first entry that fails decides the result, whatever follows it. */
  lemma FirstFailureDecides(outcomes: seq<(string, ServerOutcome)>, path: string, n: nat)
    requires n < |outcomes| && !outcomes[n].1.ServerParsed?
    requires forall j :: 0 <= j < n ==> outcomes[j].1.ServerParsed?
    ensures Collect(outcomes, path) == FailureOf(outcomes[n].1, outcomes[n].0, path)
  {
    var r := Collect(outcomes, path);
    var k :| 0 <= k < |outcomes| && (forall j :: 0 <= j < k ==> outcomes[j].1.ServerParsed?) &&
      !outcomes[k].1.ServerParsed? && r == FailureOf(outcomes[k].1, outcomes[k].0, path);
  }

  /** A parsed entry after a prefix that loads adds its server at the end. */
  lemma LoadedPrefixGrows(outcomes: seq<(string, ServerOutcome)>, path: string, n: nat, parsed: seq<McpServer>)
    requires n < |outcomes| && outcomes[n].1.ServerParsed?
    requires Collect(outcomes[..n], path) == Loaded(parsed)
    ensures Collect(outcomes[..n + 1], path) == Loaded(parsed + [outcomes[n].1.server])
  {
    var before, after := outcomes[..n], outcomes[..n + 1];
    assert forall j :: 0 <= j < n ==> after[j] == before[j];
    var r := Collect(after, path);
    assert r.Loaded?;
    var servers := parsed + [outcomes[n].1.server];
    assert forall j :: 0 <= j < n + 1 ==> r.servers[j] == servers[j];
  }

  /** A failing entry after a prefix that loads decides the result. */
  lemma FailureAfterLoaded(outcomes: seq<(string, ServerOutcome)>, path: string, n: nat, parsed: seq<McpServer>)
    requires n < |outcomes| && !outcomes[n].1.ServerParsed?
    requires Collect(outcomes[..n], path) == Loaded(parsed)
    ensures Collect(outcomes, path) == FailureOf(outcomes[n].1, outcomes[n].0, path)
  {
    assert forall j :: 0 <= j < n ==> outcomes[..n][j] == outcomes[j];
    FirstFailureDecides(outcomes, path, n);
  }

  /** What one existing file yields. */
  function FileResult(path: string, content: FileContent, reprOf: Json -> string): (r: LoadResult)
    ensures content.Unparseable? ==> r == ConfigError(InvalidJsonMessage(path, content.parseError))
    ensures content.Parsed? && !content.data.JObj? ==> r == Crash(NoAttributeMessage(content.data, "get"))
    ensures content.Parsed? && content.data.JObj? && Lookup(content.data.fields, "mcpServers").None? ==> r == Loaded([])
  {
    match content
    case Unparseable(parseError) => ConfigError(InvalidJsonMessage(path, parseError))
    case Parsed(data) =>
      if !data.JObj? then Crash(NoAttributeMessage(data, "get"))
      else
        var servers := Lookup(data.fields, "mcpServers").GetOr(JObj([]));
        if !servers.JObj? then Crash(NoAttributeMessage(servers, "items"))
        else Collect(Outcomes(servers.fields, reprOf), path)
  }

  /** The index of the first candidate that exists. */
  function FirstExisting(paths: seq<string>, files: map<string, FileContent>): (r: Option<nat>)
    ensures r.None? <==> forall j :: 0 <= j < |paths| ==> paths[j] !in files
    ensures r.Some? ==> (r.value < |paths| && paths[r.value] in files &&
      forall j :: 0 <= j < r.value ==> paths[j] !in files)
  {
    if paths == [] then None
    else if paths[0] in files then Some(0)
    else
      var r := FirstExisting(paths[1..], files);
      assert forall j :: 1 <= j < |paths| ==> paths[1..][j - 1] == paths[j];
      if r.None? then None else Some(r.value + 1)
  }

  /** The result of loading: [] when no candidate exists, else what the first existing file yields. */
  function LoadSpec(paths: seq<string>, files: map<string, FileContent>, reprOf: Json -> string): (r: LoadResult)
    ensures FirstExisting(paths, files).None? ==> r == Loaded([])
  {
    match FirstExisting(paths, files)
    case None => Loaded([])
    case Some(k) => FileResult(paths[k], files[paths[k]], reprOf)
  }

  /**
   * Only the first existing file is read: changing or adding files after it, or changing
   * files that do not exist before it, leaves the result as it was.
   */
  lemma LaterFilesIgnored(paths: seq<string>, files: map<string, FileContent>, other: map<string, FileContent>,
                          reprOf: Json -> string, k: nat)
    requires FirstExisting(paths, files) == Some(k)
    requires forall j :: 0 <= j < k ==> paths[j] !in other
    requires paths[k] in other && other[paths[k]] == files[paths[k]]
    ensures LoadSpec(paths, other, reprOf) == LoadSpec(paths, files, reprOf)
  {
    assert FirstExisting(paths, other) == Some(k);
  }

  /** `load_mcp_servers`: walk the candidates; the first that exists is read and decides the result. */
  method LoadMcpServers(paths: seq<string>, files: map<string, FileContent>, reprOf: Json -> string)
    returns (r: LoadResult)
    ensures r == LoadSpec(paths, files, reprOf)
  {
    var i := 0;
    while i < |paths|
      invariant 0 <= i <= |paths|
      invariant forall j :: 0 <= j < i ==> paths[j] !in files
    {
      var path := paths[i];
      if path !in files {
        i := i + 1;
        continue;
      }
      assert FirstExisting(paths, files) == Some(i);
      r := ReadFile(path, files[path], reprOf);
      return;
    }
    return Loaded([]);
  }

  /** Reading one existing candidate file. */
  method ReadFile(path: string, content: FileContent, reprOf: Json -> string) returns (r: LoadResult)
    ensures r == FileResult(path, content, reprOf)
  {
    match content {
      case Unparseable(parseError) =>
        return ConfigError(InvalidJsonMessage(path, parseError));
      case Parsed(data) =>
        if !data.JObj? {
          return Crash(NoAttributeMessage(data, "get"));
        }
        var servers := Lookup(data.fields, "mcpServers").GetOr(JObj([]));
        if !servers.JObj? {
          return Crash(NoAttributeMessage(servers, "items"));
        }
        r := ReadServers(servers.fields, path, reprOf);
    }
  }

  /** Reading the `n`th entry. */
  method ReadEntry(entries: seq<(string, Json)>, n: nat, reprOf: Json -> string) returns (outcome: ServerOutcome)
    requires n < |entries|
    ensures Outcomes(entries, reprOf)[n] == (entries[n].0, outcome)
  {
    outcome := ParseServer(entries[n].0, entries[n].1, reprOf);
  }

  /** The loop over the `mcpServers` entries, which stops at the first entry that fails. */
  method ReadServers(entries: seq<(string, Json)>, path: string, reprOf: Json -> string) returns (r: LoadResult)
    ensures r == Collect(Outcomes(entries, reprOf), path)
  {
    ghost var outcomes := Outcomes(entries, reprOf);
    var parsed: seq<McpServer> := [];
    var n := 0;
    while n < |entries|
      invariant 0 <= n <= |entries|
      invariant Collect(outcomes[..n], path) == Loaded(parsed)
    {
      var outcome := ReadEntry(entries, n, reprOf);
      if !outcome.ServerParsed? {
        FailureAfterLoaded(outcomes, path, n, parsed);
        return FailureOf(outcome, entries[n].0, path);
      }
      LoadedPrefixGrows(outcomes, path, n, parsed);
      parsed, n := parsed + [outcome.server], n + 1;
    }
    assert outcomes[..n] == outcomes;
    return Loaded(parsed);
  }

  /** `s` is the first of `servers` whose id is `serverId`. */
  ghost predicate FirstWithId(servers: seq<McpServer>, serverId: string, s: McpServer) {
    exists i :: 0 <= i < |servers| && servers[i] == s && s.id == serverId &&
      forall j :: 0 <= j < i ==> servers[j].id != serverId
  }

  /** The first server with this id. */
  function FindServer(servers: seq<McpServer>, serverId: string): (r: Option<McpServer>)
    ensures r.Some? ==> FirstWithId(servers, serverId, r.value)
    ensures r.None? <==> forall s :: s in servers ==> s.id != serverId
  {
    if servers == [] then None
    else if servers[0].id == serverId then Some(servers[0])
    else
      var r := FindServer(servers[1..], serverId);
      if r.Some? then
        var i :| 0 <= i < |servers[1..]| && servers[1..][i] == r.value && r.value.id == serverId &&
          forall j :: 0 <= j < i ==> servers[1..][j].id != serverId;
        assert servers[i + 1] == r.value;
        assert forall j :: 0 <= j < i + 1 ==> servers[j].id != serverId by {
          forall j | 0 <= j < i + 1 ensures servers[j].id != serverId {
            if j > 0 { assert servers[j] == servers[1..][j - 1]; }
          }
        }
        r
      else r
  }

  /** The first server with this id, nothing, or the failure of loading, which propagates. */
  datatype ServerLookup = Found(server: McpServer) | NotFound | LoadFailed(failure: LoadResult)

  /** `get_mcp_server`. */
  function GetMcpServer(serverId: string, paths: seq<string>, files: map<string, FileContent>,
                        reprOf: Json -> string): (r: ServerLookup)
    ensures var loaded := LoadSpec(paths, files, reprOf);
      (loaded.Loaded? ==> (r.Found? ==> FirstWithId(loaded.servers, serverId, r.server)) &&
                          (r.NotFound? <==> forall s :: s in loaded.servers ==> s.id != serverId) &&
                          !r.LoadFailed?) &&
      (!loaded.Loaded? ==> r == LoadFailed(loaded))
  {
    var loaded := LoadSpec(paths, files, reprOf);
    if !loaded.Loaded? then LoadFailed(loaded)
    else match FindServer(loaded.servers, serverId)
      case Some(s) => Found(s)
      case None => NotFound
  }
}
