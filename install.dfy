/**
  The client-configuration rewrite of src/install.rs: registering this executable as the
  "Roblox Studio" MCP server in a client's JSON config, and turning the results of the two
  installs (Claude, then Cursor) into one report.
 */
module Install {
  import opened Wrappers

  /** A JSON value as serde_json parses it. */
  datatype Json =
    | Null
    | Bool(b: bool)
    | Number(n: int)
    | Str(s: string)
    | Array(items: seq<Json>)
    | Object(fields: map<string, Json>)

  const MCP_SERVERS := "mcpServers"
  const STUDIO_SERVER := "Roblox Studio"
  const STDIO_FLAG := "--stdio"

  /** The server entry a client runs to start this bridge on stdio. */
  function ServerEntry(exePath: string): Json
  {
    Object(map["command" := Str(exePath), "args" := Array([Str(STDIO_FLAG)])])
  }

  /** The servers object of a config: its `mcpServers` entry if that is an object, else `{}`. */
  function Servers(config: map<string, Json>): map<string, Json>
  {
    if MCP_SERVERS in config && config[MCP_SERVERS].Object? then config[MCP_SERVERS].fields else map[]
  }

  /**
    The config after registering the Studio server: `mcpServers` is an object holding the
    Studio entry; other top-level keys, and other servers of an existing servers object,
    are kept as they were.
   */
  function WithStudioServer(config: map<string, Json>, exePath: string): (c: map<string, Json>)
    ensures MCP_SERVERS in c && c[MCP_SERVERS].Object?
    ensures STUDIO_SERVER in c[MCP_SERVERS].fields
    ensures c[MCP_SERVERS].fields[STUDIO_SERVER] == ServerEntry(exePath)
    ensures c.Keys == config.Keys + {MCP_SERVERS}
    ensures forall k :: k in config && k != MCP_SERVERS ==> c[k] == config[k]
    ensures c[MCP_SERVERS].fields.Keys == Servers(config).Keys + {STUDIO_SERVER}
    ensures forall k :: k in Servers(config) && k != STUDIO_SERVER ==> c[MCP_SERVERS].fields[k] == Servers(config)[k]
  {
    config[MCP_SERVERS := Object(Servers(config)[STUDIO_SERVER := ServerEntry(exePath)])]
  }

  /** A missing or non-object `mcpServers` entry is replaced: the Studio server is then the only one. */
  lemma WithStudioServerReplaces(config: map<string, Json>, exePath: string)
    requires MCP_SERVERS !in config || !config[MCP_SERVERS].Object?
    ensures WithStudioServer(config, exePath)[MCP_SERVERS] == Object(map[STUDIO_SERVER := ServerEntry(exePath)])
  {
  }

  /** Registering twice gives the same config as registering once. */
  lemma WithStudioServerIdempotent(config: map<string, Json>, exePath: string)
    ensures WithStudioServer(WithStudioServer(config, exePath), exePath) == WithStudioServer(config, exePath)
  {
    var once := WithStudioServer(config, exePath);
    assert Servers(once) == once[MCP_SERVERS].fields;
    assert Servers(once)[STUDIO_SERVER := ServerEntry(exePath)] == Servers(once);
    assert once[MCP_SERVERS := once[MCP_SERVERS]] == once;
  }

  /**
    `install_to_config` with its file I/O abstracted: `configPath` is the outcome of locating
    the config file, `existing` the object parsed from it (`None` when there is no file, which
    the source first creates holding `{}`). On success it returns the client's name and the
    object it writes back.
   */
  method InstallToConfig(configPath: Result<string, string>, existing: Option<map<string, Json>>, exePath: string, name: string)
    returns (r: Result<string, string>, written: Option<map<string, Json>>)
    ensures configPath.Failure? ==> r == Failure(configPath.error) && written == None
    ensures configPath.Success? ==> r == Success(name)
    ensures configPath.Success? ==> written == Some(WithStudioServer(if existing.Some? then existing.value else map[], exePath))
  {
    if configPath.Failure? {
      return Failure(configPath.error), None;
    }
    var config := if existing.Some? then existing.value else map[];
    ghost var loaded := config;
    if !(MCP_SERVERS in config && config[MCP_SERVERS].Object?) {
      config := config[MCP_SERVERS := Object(map[])];
    }
    assert config[MCP_SERVERS].fields == Servers(loaded);
    ghost var servers := Object(Servers(loaded)[STUDIO_SERVER := ServerEntry(exePath)]);
    assert config[MCP_SERVERS := servers] == loaded[MCP_SERVERS := servers];
    config := config[MCP_SERVERS := Object(config[MCP_SERVERS].fields[STUDIO_SERVER := ServerEntry(exePath)])];
    assert config == WithStudioServer(loaded, exePath);
    r, written := Success(name), Some(config);
  }

  const MESSAGE_HEAD := "Roblox Studio MCP is ready to go.\nPlease restart Studio and MCP clients to apply the changes.\n\nMCP Clients set up:\n"
  const MESSAGE_TAIL := "\n\nNote: connecting a third-party LLM to Roblox Studio via an MCP server will share your data with that external service provider. Please review their privacy practices carefully before proceeding.\nTo uninstall, delete the MCPStudioPlugin.rbxm from your Plugins directory."
  const INSTALL_FAILED := "Failed to install to either Claude or Cursor"

  /** The closing message, with the list of configured clients in its middle. */
  function GetMessage(successes: string): (m: string)
    ensures |m| == |MESSAGE_HEAD| + |successes| + |MESSAGE_TAIL|
    ensures m[..|MESSAGE_HEAD|] == MESSAGE_HEAD
    ensures m[|MESSAGE_HEAD|..|MESSAGE_HEAD| + |successes|] == successes
    ensures m[|MESSAGE_HEAD| + |successes|..] == MESSAGE_TAIL
  {
    var m := MESSAGE_HEAD + successes + MESSAGE_TAIL;
    assert m[..|MESSAGE_HEAD|] == MESSAGE_HEAD;
    assert m[|MESSAGE_HEAD| + |successes|..] == MESSAGE_TAIL;
    m
  }

  /** The parts separated by `sep`, as `join` on a vector of strings. */
  function Join(parts: seq<string>, sep: string): string
  {
    if |parts| == 0 then ""
    else if |parts| == 1 then parts[0]
    else parts[0] + sep + Join(parts[1..], sep)
  }

  /** The failed installs, reported as one error with each failure attached as a note, in order. */
  datatype Report = Report(message: string, notes: seq<string>)

  /** The names of the successful installs, in order. */
  function Successes(results: seq<Result<string, string>>): seq<string>
  {
    if results == [] then []
    else Successes(results[..|results| - 1])
         + (if results[|results| - 1].Success? then [results[|results| - 1].value] else [])
  }

  /** The errors of the failed installs, in order. */
  function Errors(results: seq<Result<string, string>>): seq<string>
  {
    if results == [] then []
    else Errors(results[..|results| - 1])
         + (if results[|results| - 1].Failure? then [results[|results| - 1].error] else [])
  }

  /** There is no success exactly when every install failed, and then every install has its error. */
  lemma {:induction false} SuccessesEmpty(results: seq<Result<string, string>>)
    ensures Successes(results) == [] <==> forall i :: 0 <= i < |results| ==> results[i].Failure?
    ensures |Successes(results)| + |Errors(results)| == |results|
  {
    if results != [] {
      var init := results[..|results| - 1];
      SuccessesEmpty(init);
      assert forall i :: 0 <= i < |init| ==> init[i] == results[i];
    }
  }

  /**
    The `filter_map` over the install results: the successes are collected and every error
    is pushed onto a separate vector, both in the order of the results.
   */
  method Partition(results: seq<Result<string, string>>) returns (successes: seq<string>, errors: seq<string>)
    ensures successes == Successes(results) && errors == Errors(results)
  {
    successes, errors := [], [];
    for i := 0 to |results|
      invariant successes == Successes(results[..i]) && errors == Errors(results[..i])
    {
      assert results[..i + 1][..i] == results[..i];
      match results[i] {
        case Success(name) => successes := successes + [name];
        case Failure(e) => errors := errors + [e];
      }
    }
    assert results[..|results|] == results;
  }

  /** Successes and errors of a two-element result vector, spelled out. */
  lemma PairResults(a: Result<string, string>, b: Result<string, string>)
    ensures Successes([a, b]) == (if a.Success? then [a.value] else []) + (if b.Success? then [b.value] else [])
    ensures Errors([a, b]) == (if a.Failure? then [a.error] else []) + (if b.Failure? then [b.error] else [])
  {
    assert [a, b][..1] == [a] && [a][..0] == [];
    assert Successes([a]) == (if a.Success? then [a.value] else []);
    assert Errors([a]) == (if a.Failure? then [a.error] else []);
  }

  /**
    The aggregation at the end of `install_internal`, given the outcomes of installing into
    the Claude and the Cursor config: it fails exactly when both failed, with both errors as
    notes; otherwise the message lists the successful clients, Claude first, one per line.
   */
  method InstallInternal(claude: Result<string, string>, cursor: Result<string, string>) returns (r: Result<string, Report>)
    ensures r.Failure? <==> claude.Failure? && cursor.Failure?
    ensures r.Failure? ==> r.error == Report(INSTALL_FAILED, [claude.error, cursor.error])
    ensures claude.Success? && cursor.Success? ==> r == Success(GetMessage(claude.value + "\n" + cursor.value))
    ensures claude.Success? && cursor.Failure? ==> r == Success(GetMessage(claude.value))
    ensures claude.Failure? && cursor.Success? ==> r == Success(GetMessage(cursor.value))
  {
    var successes, errors := Partition([claude, cursor]);
    PairResults(claude, cursor);
    if successes == [] {
      return Failure(Report(INSTALL_FAILED, errors));
    }
    var joined := Join(successes, "\n");
    if |successes| == 2 {
      assert successes == [claude.value, cursor.value];
      assert successes[1..] == [cursor.value];
      assert Join([cursor.value], "\n") == cursor.value;
    }
    r := Success(GetMessage(joined));
  }
}
