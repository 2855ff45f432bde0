/**
 * The chat orchestrator (`ChatOrchestrator`), as its code is written: one
 * model call with the flattened tools of every connected server and a
 * system prompt describing them; when the model stops for tool use, one
 * round of tool calls whose successes are reported back as text messages,
 * and one more model call without tools. Unresolvable and failing tool
 * calls are skipped; there is no event relay and no further round.
 */
module ChatOrchestrator {
  import opened Common
  import opened McpRegistry
  import opened Bedrock

  // ---------------------------------------------------------------------
  // Flattening (`getMCPTools`)

  const Separator: string := "__"

  /** The namespaced name `serverId__toolName`. */
  function FlatName(serverId: ServerId, toolName: string): string
  {
    serverId + Separator + toolName
  }

  /** How a template literal shows an optional description. */
  function DescriptionText(description: Option<string>): string
  {
    match description
    case Some(d) => d
    case None => "undefined"
  }

  /** The flattened form of one tool of one server. */
  function Flatten(serverId: ServerId, tool: MCPTool): (f: FlatTool)
    ensures f.name == serverId + "__" + tool.name
    ensures f.description == Some("[" + serverId + "] " + DescriptionText(tool.description))
    ensures f.inputSchema == tool.inputSchema
  {
    FlatTool(FlatName(serverId, tool.name), Some("[" + serverId + "] " + DescriptionText(tool.description)), tool.inputSchema)
  }

  function FlattenServer(serverId: ServerId, tools: seq<MCPTool>): (r: seq<FlatTool>)
    ensures |r| == |tools|
    ensures forall j :: 0 <= j < |tools| ==> r[j] == Flatten(serverId, tools[j])
  {
    seq(|tools|, j requires 0 <= j < |tools| => Flatten(serverId, tools[j]))
  }

  /** `allServerTools`: every server's tools, server by server. */
  function FlattenAll(toolsByServer: seq<(ServerId, seq<MCPTool>)>): seq<FlatTool>
  {
    if toolsByServer == [] then []
    else
      var last := toolsByServer[|toolsByServer| - 1];
      FlattenAll(toolsByServer[..|toolsByServer| - 1]) + FlattenServer(last.0, last.1)
  }

  /** The flattened names of one server's tools. */
  function FlatNames(serverId: ServerId, tools: seq<MCPTool>): set<string>
  {
    set j | 0 <= j < |tools| :: FlatName(serverId, tools[j].name)
  }

  /** `d` after entering each of one server's tools, one after the other. */
  function EnterServer(d: map<string, ServerId>, serverId: ServerId, tools: seq<MCPTool>): map<string, ServerId>
  {
    if tools == [] then d
    else EnterServer(d, serverId, tools[..|tools| - 1])[FlatName(serverId, tools[|tools| - 1].name) := serverId]
  }

  /** `toolDictionary`: each flattened name mapped to its server; a later server overwrites. */
  function Dictionary(toolsByServer: seq<(ServerId, seq<MCPTool>)>): map<string, ServerId>
  {
    if toolsByServer == [] then map[]
    else
      var last := toolsByServer[|toolsByServer| - 1];
      EnterServer(Dictionary(toolsByServer[..|toolsByServer| - 1]), last.0, last.1)
  }

  /** Entering a server adds exactly its flattened names, all mapped to it. */
  lemma {:induction false} EnterServerEntries(d: map<string, ServerId>, serverId: ServerId, tools: seq<MCPTool>)
    ensures EnterServer(d, serverId, tools).Keys == d.Keys + FlatNames(serverId, tools)
    ensures forall n :: n in FlatNames(serverId, tools) ==> EnterServer(d, serverId, tools)[n] == serverId
    ensures forall n :: n in d && n !in FlatNames(serverId, tools) ==> EnterServer(d, serverId, tools)[n] == d[n]
  {
    if tools != [] {
      var pre := tools[..|tools| - 1];
      EnterServerEntries(d, serverId, pre);
      assert FlatNames(serverId, tools) == FlatNames(serverId, pre) + {FlatName(serverId, tools[|tools| - 1].name)} by {
        forall n | n in FlatNames(serverId, tools) ensures n in FlatNames(serverId, pre) + {FlatName(serverId, tools[|tools| - 1].name)} {
          var j :| 0 <= j < |tools| && n == FlatName(serverId, tools[j].name);
          if j < |pre| { assert tools[j] == pre[j]; }
        }
        forall j | 0 <= j < |pre| ensures FlatName(serverId, pre[j].name) in FlatNames(serverId, tools) {
          assert pre[j] == tools[j];
        }
      }
    }
  }

  /** The number of (server, tool) pairs. */
  function PairCount(toolsByServer: seq<(ServerId, seq<MCPTool>)>): nat
  {
    if toolsByServer == [] then 0
    else PairCount(toolsByServer[..|toolsByServer| - 1]) + |toolsByServer[|toolsByServer| - 1].1|
  }

  /** `getMCPTools`, given the result of `getAvailableTools`. */
  method GetMCPTools(toolsByServer: seq<(ServerId, seq<MCPTool>)>)
    returns (allServerTools: seq<FlatTool>, toolDictionary: map<string, ServerId>)
    ensures allServerTools == FlattenAll(toolsByServer)
    ensures toolDictionary == Dictionary(toolsByServer)
  {
    allServerTools := [];
    toolDictionary := map[];
    var i := 0;
    while i < |toolsByServer|
      invariant 0 <= i <= |toolsByServer|
      invariant allServerTools == FlattenAll(toolsByServer[..i])
      invariant toolDictionary == Dictionary(toolsByServer[..i])
    {
      var (serverId, tools) := toolsByServer[i];
      var before, dictBefore := allServerTools, toolDictionary;
      var j := 0;
      while j < |tools|
        invariant 0 <= j <= |tools|
        invariant allServerTools == before + FlattenServer(serverId, tools[..j])
        invariant toolDictionary == EnterServer(dictBefore, serverId, tools[..j])
      {
        var tool := tools[j];
        allServerTools := allServerTools + [Flatten(serverId, tool)];
        toolDictionary := toolDictionary[FlatName(serverId, tool.name) := serverId];
        assert tools[..j + 1][..j] == tools[..j];
        assert FlattenServer(serverId, tools[..j + 1]) == FlattenServer(serverId, tools[..j]) + [Flatten(serverId, tool)];
        j := j + 1;
      }
      assert tools[..j] == tools;
      assert toolsByServer[..i + 1][..i] == toolsByServer[..i];
      i := i + 1;
    }
    assert toolsByServer[..i] == toolsByServer;
  }

  /** Flattening follows the server order: flattening a concatenation
      concatenates the flattenings. */
  lemma {:induction false} FlattenAllAppend(a: seq<(ServerId, seq<MCPTool>)>, b: seq<(ServerId, seq<MCPTool>)>)
    ensures FlattenAll(a + b) == FlattenAll(a) + FlattenAll(b)
    ensures PairCount(a + b) == PairCount(a) + PairCount(b)
    decreases |b|
  {
    if b == [] {
      assert a + b == a;
    } else {
      var b' := b[..|b| - 1];
      assert (a + b)[..|a + b| - 1] == a + b';
      FlattenAllAppend(a, b');
      AppendAssoc(FlattenAll(a), FlattenAll(b'), FlattenServer(b[|b| - 1].0, b[|b| - 1].1));
    }
  }

  /** Exactly one flattened tool per (server, tool) pair, and every flattened
      tool comes from such a pair. */
  lemma {:induction false} FlattenAllPairs(toolsByServer: seq<(ServerId, seq<MCPTool>)>)
    ensures |FlattenAll(toolsByServer)| == PairCount(toolsByServer)
    ensures forall f :: f in FlattenAll(toolsByServer) <==>
              exists i, j :: 0 <= i < |toolsByServer| && 0 <= j < |toolsByServer[i].1| &&
                             f == Flatten(toolsByServer[i].0, toolsByServer[i].1[j])
  {
    if toolsByServer != [] {
      var n := |toolsByServer| - 1;
      var pre := toolsByServer[..n];
      FlattenAllPairs(pre);
      var (s, tools) := toolsByServer[n];
      forall f | f in FlattenAll(toolsByServer)
        ensures exists i, j :: 0 <= i < |toolsByServer| && 0 <= j < |toolsByServer[i].1| &&
                               f == Flatten(toolsByServer[i].0, toolsByServer[i].1[j])
      {
        if f in FlattenAll(pre) {
          var i, j :| 0 <= i < |pre| && 0 <= j < |pre[i].1| && f == Flatten(pre[i].0, pre[i].1[j]);
          assert toolsByServer[i] == pre[i];
        } else {
          var j :| 0 <= j < |tools| && FlattenServer(s, tools)[j] == f;
          assert f == Flatten(toolsByServer[n].0, toolsByServer[n].1[j]);
        }
      }
      forall i, j | 0 <= i < |toolsByServer| && 0 <= j < |toolsByServer[i].1|
        ensures Flatten(toolsByServer[i].0, toolsByServer[i].1[j]) in FlattenAll(toolsByServer)
      {
        if i < n {
          assert toolsByServer[i] == pre[i];
        } else {
          assert FlattenServer(s, tools)[j] == Flatten(toolsByServer[i].0, toolsByServer[i].1[j]);
        }
      }
    }
  }

  /** The dictionary holds exactly the flattened names. */
  lemma {:induction false} DictionaryKeys(toolsByServer: seq<(ServerId, seq<MCPTool>)>)
    ensures forall n :: n in Dictionary(toolsByServer) <==>
              exists i, j :: 0 <= i < |toolsByServer| && 0 <= j < |toolsByServer[i].1| &&
                             n == FlatName(toolsByServer[i].0, toolsByServer[i].1[j].name)
  {
    if toolsByServer != [] {
      var k := |toolsByServer| - 1;
      var pre := toolsByServer[..k];
      DictionaryKeys(pre);
      var (s, tools) := toolsByServer[k];
      EnterServerEntries(Dictionary(pre), s, tools);
      var d := Dictionary(toolsByServer);
      forall n | n in d
        ensures exists i, j :: 0 <= i < |toolsByServer| && 0 <= j < |toolsByServer[i].1| &&
                               n == FlatName(toolsByServer[i].0, toolsByServer[i].1[j].name)
      {
        if n in FlatNames(s, tools) {
          var j :| 0 <= j < |tools| && n == FlatName(s, tools[j].name);
          assert toolsByServer[k].1[j] == tools[j];
        } else {
          var i, j :| 0 <= i < |pre| && 0 <= j < |pre[i].1| && n == FlatName(pre[i].0, pre[i].1[j].name);
          assert toolsByServer[i] == pre[i];
        }
      }
      forall i, j | 0 <= i < |toolsByServer| && 0 <= j < |toolsByServer[i].1|
        ensures FlatName(toolsByServer[i].0, toolsByServer[i].1[j].name) in d
      {
        if i < k {
          assert toolsByServer[i] == pre[i];
        } else {
          assert FlatName(s, tools[j].name) in FlatNames(s, tools);
        }
      }
    }
  }

  /** Each name maps to the server of a pair that produces it. */
  lemma {:induction false} DictionaryValues(toolsByServer: seq<(ServerId, seq<MCPTool>)>)
    ensures forall n :: n in Dictionary(toolsByServer) ==>
              exists i, j :: 0 <= i < |toolsByServer| && 0 <= j < |toolsByServer[i].1| &&
                             n == FlatName(toolsByServer[i].0, toolsByServer[i].1[j].name) &&
                             Dictionary(toolsByServer)[n] == toolsByServer[i].0
  {
    if toolsByServer != [] {
      var k := |toolsByServer| - 1;
      var pre := toolsByServer[..k];
      DictionaryValues(pre);
      var (s, tools) := toolsByServer[k];
      EnterServerEntries(Dictionary(pre), s, tools);
      var d := Dictionary(toolsByServer);
      forall n | n in d
        ensures exists i, j :: 0 <= i < |toolsByServer| && 0 <= j < |toolsByServer[i].1| &&
                               n == FlatName(toolsByServer[i].0, toolsByServer[i].1[j].name) &&
                               d[n] == toolsByServer[i].0
      {
        if n in FlatNames(s, tools) {
          var j :| 0 <= j < |tools| && n == FlatName(s, tools[j].name);
          assert toolsByServer[k].1[j] == tools[j];
        } else {
          var i, j :| 0 <= i < |pre| && 0 <= j < |pre[i].1| &&
                      n == FlatName(pre[i].0, pre[i].1[j].name) && Dictionary(pre)[n] == pre[i].0;
          assert toolsByServer[i] == pre[i];
        }
      }
    }
  }

  /** A later server overwrites: every name produced by the later part of
      the list maps to what that part alone maps it to. */
  lemma {:induction false} DictionaryLaterWins(a: seq<(ServerId, seq<MCPTool>)>, b: seq<(ServerId, seq<MCPTool>)>)
    ensures Dictionary(a + b).Keys == Dictionary(a).Keys + Dictionary(b).Keys
    ensures forall n :: n in Dictionary(b) ==> Dictionary(a + b)[n] == Dictionary(b)[n]
    ensures forall n :: n in Dictionary(a) && n !in Dictionary(b) ==> Dictionary(a + b)[n] == Dictionary(a)[n]
    decreases |b|
  {
    if b == [] {
      assert a + b == a;
    } else {
      var b' := b[..|b| - 1];
      assert (a + b)[..|a + b| - 1] == a + b';
      DictionaryLaterWins(a, b');
      var last := b[|b| - 1];
      assert (a + b)[|a + b| - 1] == last;
      EnterServerEntries(Dictionary(a + b'), last.0, last.1);
      EnterServerEntries(Dictionary(b'), last.0, last.1);
    }
  }

  /** Resolving a flattened name and removing the first `serverId__` gives
      back the original name of a tool of that server: the first occurrence
      is the prefix. */
  lemma ResolveRoundTrip(toolsByServer: seq<(ServerId, seq<MCPTool>)>, n: string)
    requires n in Dictionary(toolsByServer)
    ensures exists i, j :: 0 <= i < |toolsByServer| && 0 <= j < |toolsByServer[i].1| &&
              toolsByServer[i].0 == Dictionary(toolsByServer)[n] &&
              RemoveFirst(n, Dictionary(toolsByServer)[n] + Separator) == toolsByServer[i].1[j].name
  {
    DictionaryValues(toolsByServer);
    var i, j :| 0 <= i < |toolsByServer| && 0 <= j < |toolsByServer[i].1| &&
                n == FlatName(toolsByServer[i].0, toolsByServer[i].1[j].name) &&
                Dictionary(toolsByServer)[n] == toolsByServer[i].0;
    var s := toolsByServer[i].0;
    assert n == (s + Separator) + toolsByServer[i].1[j].name;
    RemoveFirstOfPrefix(s + Separator, toolsByServer[i].1[j].name);
  }

  /** The first underscore of a flattened name ends the server id when the
      id holds none. */
  lemma FirstUnderscore(serverId: ServerId, toolName: string)
    requires '_' !in serverId
    ensures IndexOf(FlatName(serverId, toolName), "_") == Some(|serverId|)
  {
    var n := FlatName(serverId, toolName);
    assert n[|serverId|..|serverId| + 1] == "_";
    assert OccursAt(n, "_", |serverId|);
    forall j | 0 <= j < |serverId| ensures !OccursAt(n, "_", j) {
      assert n[j] == serverId[j];
    }
  }

  /** Flattened names are unique when server ids hold no underscore. */
  lemma FlatNameInjective(s1: ServerId, t1: string, s2: ServerId, t2: string)
    requires '_' !in s1 && '_' !in s2
    requires FlatName(s1, t1) == FlatName(s2, t2)
    ensures s1 == s2 && t1 == t2
  {
    var n := FlatName(s1, t1);
    FirstUnderscore(s1, t1);
    FirstUnderscore(s2, t2);
    assert s1 == n[..|s1|] == s2;
    assert t1 == n[|s1| + 2..] == t2;
  }

  /** Without that condition two pairs can share a name, so the dictionary
      keeps only the later one. */
  lemma FlatNamesCanCollide()
    ensures FlatName("a", "b__c") == FlatName("a__b", "c")
    ensures FlatName("a", "_x") == FlatName("a_", "x")
  {
  }

  // ---------------------------------------------------------------------
  // The tool round (`processToolResponse`)

  /** How a content block resolves: its server, the un-prefixed name and
      the input, or nothing for a block without a named tool use, a name
      absent from the dictionary, or an empty server id. */
  function Resolve(block: ContentBlock, dict: map<string, ServerId>): Option<(ServerId, string, Json)>
  {
    if !block.ToolUse? || block.name == "" then None
    else if block.name !in dict then None
    else
      var serverId := dict[block.name];
      if serverId == "" then None
      else Some((serverId, RemoveFirst(block.name, serverId + Separator), block.input))
  }

  /** The three lists the round builds. */
  datatype ToolRound = ToolRound(toolsUsed: seq<string>, mcpServersUsed: seq<ServerId>, additionalMessages: seq<Message>)

  /** The text of the report message for a successful call. */
  function UsedToolText(name: string): string
  {
    "Used tool " + name
  }

  function ToolResultText(result: CallToolResult, stringify: Json -> string): string
  {
    "Tool result: " + stringify(result.content)
  }

  /** One block of the round: a successful call appends its name, its server
      (once) and two messages; anything else leaves the lists as they are. */
  function RoundStep(acc: ToolRound, block: ContentBlock, dict: map<string, ServerId>,
                     clients: map<ServerId, Client>,
                     callTool: (Client, CallRequest) -> Option<CallToolResult>,
                     stringify: Json -> string): ToolRound
  {
    match Resolve(block, dict)
    case None => acc
    case Some((serverId, name, input)) =>
      match CallThrough(clients, serverId, name, input, callTool)
      case Err(_) => acc
      case Ok(result) =>
        ToolRound(
          acc.toolsUsed + [name],
          acc.mcpServersUsed + (if serverId in acc.mcpServersUsed then [] else [serverId]),
          acc.additionalMessages + [TextMessage(Assistant, UsedToolText(name)),
                                    TextMessage(User, ToolResultText(result, stringify))])
  }

  /** The lists after the given blocks. */
  function Round(blocks: seq<ContentBlock>, dict: map<string, ServerId>, clients: map<ServerId, Client>,
                 callTool: (Client, CallRequest) -> Option<CallToolResult>,
                 stringify: Json -> string): ToolRound
  {
    if blocks == [] then ToolRound([], [], [])
    else RoundStep(Round(blocks[..|blocks| - 1], dict, clients, callTool, stringify),
                   blocks[|blocks| - 1], dict, clients, callTool, stringify)
  }

  /** The call a block makes, when it resolves and the call succeeds: the
      un-prefixed name and the call's result. */
  function SuccessfulCall(block: ContentBlock, dict: map<string, ServerId>, clients: map<ServerId, Client>,
                          callTool: (Client, CallRequest) -> Option<CallToolResult>): Option<(string, CallToolResult)>
  {
    match Resolve(block, dict)
    case None => None
    case Some((serverId, name, input)) =>
      match CallThrough(clients, serverId, name, input, callTool)
      case Err(_) => None
      case Ok(result) => Some((name, result))
  }

  /** The block calls its tool and the call succeeds. */
  predicate Succeeds(block: ContentBlock, dict: map<string, ServerId>, clients: map<ServerId, Client>,
                     callTool: (Client, CallRequest) -> Option<CallToolResult>)
  {
    SuccessfulCall(block, dict, clients, callTool).Some?
  }

  /** The successful calls of the blocks, in block order. */
  function SucceededCalls(blocks: seq<ContentBlock>, dict: map<string, ServerId>, clients: map<ServerId, Client>,
                          callTool: (Client, CallRequest) -> Option<CallToolResult>): seq<(string, CallToolResult)>
  {
    if blocks == [] then []
    else
      var last := blocks[|blocks| - 1];
      SucceededCalls(blocks[..|blocks| - 1], dict, clients, callTool) +
        (match SuccessfulCall(last, dict, clients, callTool) case Some(c) => [c] case None => [])
  }

  /** Two report messages per successful call, in call order: the
      assistant's "Used tool X", then the user's "Tool result: " followed by
      the JSON text of that call's content. */
  predicate Reported(calls: seq<(string, CallToolResult)>, messages: seq<Message>, stringify: Json -> string)
  {
    && |messages| == 2 * |calls|
    && forall k :: 0 <= k < |calls| ==>
         messages[2 * k] == TextMessage(Assistant, UsedToolText(calls[k].0)) &&
         messages[2 * k + 1] == TextMessage(User, ToolResultText(calls[k].1, stringify))
  }

  /** The names of the calls, in order. */
  function CallNames(calls: seq<(string, CallToolResult)>): (names: seq<string>)
    ensures |names| == |calls| && forall k :: 0 <= k < |calls| ==> names[k] == calls[k].0
  {
    seq(|calls|, k requires 0 <= k < |calls| => calls[k].0)
  }

  /** One block adds its call to the lists exactly when the call succeeds,
      and keeps each call reported by its two messages. */
  lemma RoundStepReports(acc: ToolRound, calls: seq<(string, CallToolResult)>, block: ContentBlock,
                         dict: map<string, ServerId>, clients: map<ServerId, Client>,
                         callTool: (Client, CallRequest) -> Option<CallToolResult>,
                         stringify: Json -> string)
    requires acc.toolsUsed == CallNames(calls) && Reported(calls, acc.additionalMessages, stringify)
    ensures var next := RoundStep(acc, block, dict, clients, callTool, stringify);
            var calls' := calls + (match SuccessfulCall(block, dict, clients, callTool) case Some(c) => [c] case None => []);
            next.toolsUsed == CallNames(calls') && Reported(calls', next.additionalMessages, stringify)
  {
    var next := RoundStep(acc, block, dict, clients, callTool, stringify);
    match SuccessfulCall(block, dict, clients, callTool) {
      case None =>
        assert calls + [] == calls;
      case Some(c) =>
        var calls' := calls + [c];
        var n := |calls|;
        assert next.toolsUsed == acc.toolsUsed + [c.0];
        assert next.additionalMessages == acc.additionalMessages +
          [TextMessage(Assistant, UsedToolText(c.0)), TextMessage(User, ToolResultText(c.1, stringify))];
        forall k | 0 <= k < |calls'|
          ensures next.additionalMessages[2 * k] == TextMessage(Assistant, UsedToolText(calls'[k].0))
          ensures next.additionalMessages[2 * k + 1] == TextMessage(User, ToolResultText(calls'[k].1, stringify))
        {
          if k < n {
            assert calls'[k] == calls[k];
            assert next.additionalMessages[2 * k] == acc.additionalMessages[2 * k];
            assert next.additionalMessages[2 * k + 1] == acc.additionalMessages[2 * k + 1];
          }
        }
    }
  }

  /** `toolsUsed` names exactly the successful calls, in block order, and
      each is reported by two messages: the assistant's "Used tool X", then
      the user's "Tool result: ..." with the JSON text of that call's content. */
  lemma {:induction false} RoundMessages(blocks: seq<ContentBlock>, dict: map<string, ServerId>,
                                         clients: map<ServerId, Client>,
                                         callTool: (Client, CallRequest) -> Option<CallToolResult>,
                                         stringify: Json -> string)
    ensures var r := Round(blocks, dict, clients, callTool, stringify);
            var calls := SucceededCalls(blocks, dict, clients, callTool);
            r.toolsUsed == CallNames(calls) && Reported(calls, r.additionalMessages, stringify)
  {
    if blocks != [] {
      var pre := blocks[..|blocks| - 1];
      RoundMessages(pre, dict, clients, callTool, stringify);
      RoundStepReports(Round(pre, dict, clients, callTool, stringify), SucceededCalls(pre, dict, clients, callTool),
                       blocks[|blocks| - 1], dict, clients, callTool, stringify);
    }
  }

  /** `mcpServersUsed` holds no duplicates and is exactly the set of servers
      of the successful calls. */
  lemma {:induction false} RoundServers(blocks: seq<ContentBlock>, dict: map<string, ServerId>,
                                        clients: map<ServerId, Client>,
                                        callTool: (Client, CallRequest) -> Option<CallToolResult>,
                                        stringify: Json -> string)
    ensures NoDuplicates(Round(blocks, dict, clients, callTool, stringify).mcpServersUsed)
    ensures forall s :: s in Round(blocks, dict, clients, callTool, stringify).mcpServersUsed <==>
              exists i :: 0 <= i < |blocks| && Succeeds(blocks[i], dict, clients, callTool) &&
                          Resolve(blocks[i], dict).value.0 == s
  {
    if blocks != [] {
      var pre := blocks[..|blocks| - 1];
      RoundServers(pre, dict, clients, callTool, stringify);
      var servers := Round(blocks, dict, clients, callTool, stringify).mcpServersUsed;
      forall s | s in servers
        ensures exists i :: 0 <= i < |blocks| && Succeeds(blocks[i], dict, clients, callTool) &&
                            Resolve(blocks[i], dict).value.0 == s
      {
        if s in Round(pre, dict, clients, callTool, stringify).mcpServersUsed {
          var i :| 0 <= i < |pre| && Succeeds(pre[i], dict, clients, callTool) && Resolve(pre[i], dict).value.0 == s;
          assert blocks[i] == pre[i];
        }
      }
      forall i | 0 <= i < |blocks| && Succeeds(blocks[i], dict, clients, callTool)
        ensures Resolve(blocks[i], dict).value.0 in servers
      {
        if i < |pre| { assert blocks[i] == pre[i]; }
      }
    }
  }

  /** `processToolResponse`, calling through the registry. */
  method ProcessToolResponse(toolRequests: seq<ContentBlock>, toolDictionary: map<string, ServerId>,
                             mcp: MCPManager,
                             callTool: (Client, CallRequest) -> Option<CallToolResult>,
                             stringify: Json -> string)
    returns (toolsUsed: seq<string>, mcpServersUsed: seq<ServerId>, additionalMessages: seq<Message>)
    ensures ToolRound(toolsUsed, mcpServersUsed, additionalMessages) ==
              Round(toolRequests, toolDictionary, mcp.clients, callTool, stringify)
  {
    toolsUsed, mcpServersUsed, additionalMessages := [], [], [];
    var i := 0;
    while i < |toolRequests|
      invariant 0 <= i <= |toolRequests|
      invariant ToolRound(toolsUsed, mcpServersUsed, additionalMessages) ==
                  Round(toolRequests[..i], toolDictionary, mcp.clients, callTool, stringify)
    {
      var block := toolRequests[i];
      assert toolRequests[..i + 1][..i] == toolRequests[..i];
      i := i + 1;
      if !block.ToolUse? || block.name == "" {
        continue;
      }
      var fullToolName := block.name;
      if fullToolName !in toolDictionary {
        continue;
      }
      var serverId := toolDictionary[fullToolName];
      var actualToolName := RemoveFirst(fullToolName, serverId + Separator);
      if serverId != "" {
        var result := mcp.ExecuteCallTool(serverId, actualToolName, block.input, callTool);
        if result.Ok? {
          toolsUsed := toolsUsed + [actualToolName];
          if serverId !in mcpServersUsed {
            mcpServersUsed := mcpServersUsed + [serverId];
          }
          additionalMessages := additionalMessages + [TextMessage(Assistant, UsedToolText(actualToolName))];
          additionalMessages := additionalMessages + [TextMessage(User, ToolResultText(result.value, stringify))];
        }
      }
    }
    assert toolRequests[..i] == toolRequests;
  }

  // ---------------------------------------------------------------------
  // The system prompt (`buildToolSystemPrompt`)

  const PromptHeader: string :=
    "You are a helpful AI assistant with access to various tools through MCP servers.\n\n" +
    "Available MCP servers and their capabilities:\n"

  const PromptFooter: string :=
    "\nWhen using tools, consider which MCP server would be most appropriate for the user's request."

  /** The heading line of one server: its id and its configured description. */
  function ServerHeading(serverId: ServerId, config: Option<MCPServer>): string
  {
    "\n" + serverId + " (" + (match config case Some(c) => c.description case None => "No description") + "):\n"
  }

  function ToolLine(tool: MCPTool): string
  {
    "  - " + tool.name + ": " + DescriptionText(tool.description) + "\n"
  }

  function ToolLines(tools: seq<MCPTool>): seq<string>
  {
    seq(|tools|, j requires 0 <= j < |tools| => ToolLine(tools[j]))
  }

  function ServerSection(serverId: ServerId, tools: seq<MCPTool>, servers: map<ServerId, MCPServer>): string
  {
    ServerHeading(serverId, if serverId in servers then Some(servers[serverId]) else None) + Concat(ToolLines(tools))
  }

  function SectionList(toolsByServer: seq<(ServerId, seq<MCPTool>)>, servers: map<ServerId, MCPServer>): seq<string>
  {
    seq(|toolsByServer|, i requires 0 <= i < |toolsByServer| => ServerSection(toolsByServer[i].0, toolsByServer[i].1, servers))
  }

  function Sections(toolsByServer: seq<(ServerId, seq<MCPTool>)>, servers: map<ServerId, MCPServer>): string
  {
    Concat(SectionList(toolsByServer, servers))
  }

  /** The whole prompt: header, one section per server in order, footer. */
  function SystemPrompt(toolsByServer: seq<(ServerId, seq<MCPTool>)>, servers: map<ServerId, MCPServer>): string
  {
    PromptHeader + Sections(toolsByServer, servers) + PromptFooter
  }

  method BuildToolSystemPrompt(toolsByServer: seq<(ServerId, seq<MCPTool>)>, mcp: MCPManager)
    returns (prompt: string)
    ensures prompt == SystemPrompt(toolsByServer, mcp.servers)
  {
    prompt := PromptHeader;
    var i := 0;
    while i < |toolsByServer|
      invariant 0 <= i <= |toolsByServer|
      invariant prompt == PromptHeader + Sections(toolsByServer[..i], mcp.servers)
    {
      var serverId, tools := toolsByServer[i].0, toolsByServer[i].1;
      var mcpServer := mcp.GetServerConfig(serverId);
      var heading := ServerHeading(serverId, mcpServer);
      ghost var before := prompt + heading;
      prompt := prompt + heading;
      var j := 0;
      assert tools[..0] == [];
      while j < |tools|
        invariant 0 <= j <= |tools|
        invariant prompt == before + Concat(ToolLines(tools[..j]))
      {
        ToolLinesSnoc(tools, j);
        AppendAssoc(before, Concat(ToolLines(tools[..j])), ToolLine(tools[j]));
        prompt := prompt + ToolLine(tools[j]);
        j := j + 1;
      }
      assert tools[..j] == tools;
      AppendAssoc(PromptHeader + Sections(toolsByServer[..i], mcp.servers), heading, Concat(ToolLines(tools)));
      AppendAssoc(PromptHeader, Sections(toolsByServer[..i], mcp.servers), heading + Concat(ToolLines(tools)));
      SectionsSnoc(toolsByServer, i, mcp.servers);
      i := i + 1;
    }
    assert toolsByServer[..i] == toolsByServer;
    prompt := prompt + PromptFooter;
  }

  lemma ToolLinesSnoc(tools: seq<MCPTool>, j: nat)
    requires j < |tools|
    ensures Concat(ToolLines(tools[..j + 1])) == Concat(ToolLines(tools[..j])) + ToolLine(tools[j])
  {
    assert ToolLines(tools[..j + 1]) == ToolLines(tools[..j]) + [ToolLine(tools[j])];
    ConcatSnoc(ToolLines(tools[..j]), ToolLine(tools[j]));
  }

  lemma SectionsSnoc(toolsByServer: seq<(ServerId, seq<MCPTool>)>, i: nat, servers: map<ServerId, MCPServer>)
    requires i < |toolsByServer|
    ensures Sections(toolsByServer[..i + 1], servers) ==
              Sections(toolsByServer[..i], servers) + ServerSection(toolsByServer[i].0, toolsByServer[i].1, servers)
  {
    var section := ServerSection(toolsByServer[i].0, toolsByServer[i].1, servers);
    assert SectionList(toolsByServer[..i + 1], servers) == SectionList(toolsByServer[..i], servers) + [section];
    ConcatSnoc(SectionList(toolsByServer[..i], servers), section);
  }

  /** Each server's section occurs in the prompt. */
  lemma SectionInPrompt(toolsByServer: seq<(ServerId, seq<MCPTool>)>, servers: map<ServerId, MCPServer>, i: nat)
    requires i < |toolsByServer|
    ensures Contains(SystemPrompt(toolsByServer, servers), SectionList(toolsByServer, servers)[i])
  {
    var sections := Sections(toolsByServer, servers);
    ConcatContains(SectionList(toolsByServer, servers), i);
    ContainsMiddle(SystemPrompt(toolsByServer, servers), PromptHeader, sections, PromptFooter);
    ContainsWithin(SystemPrompt(toolsByServer, servers), sections, SectionList(toolsByServer, servers)[i]);
  }

  /** A section holds its heading and each of its tool lines. */
  lemma SectionLines(serverId: ServerId, tools: seq<MCPTool>, servers: map<ServerId, MCPServer>)
    ensures Contains(ServerSection(serverId, tools, servers),
                     ServerHeading(serverId, if serverId in servers then Some(servers[serverId]) else None))
    ensures forall j :: 0 <= j < |tools| ==> Contains(ServerSection(serverId, tools, servers), ToolLine(tools[j]))
  {
    var h := ServerHeading(serverId, if serverId in servers then Some(servers[serverId]) else None);
    var lines := Concat(ToolLines(tools));
    ContainsMiddle(ServerSection(serverId, tools, servers), "", h, lines);
    ContainsMiddle(ServerSection(serverId, tools, servers), h, lines, "");
    forall j | 0 <= j < |tools| ensures Contains(ServerSection(serverId, tools, servers), ToolLine(tools[j])) {
      ConcatContains(ToolLines(tools), j);
      ContainsWithin(ServerSection(serverId, tools, servers), lines, ToolLine(tools[j]));
    }
  }

  /** The prompt starts with the header, ends with the footer, and names
      every server with its description and every tool of it with its
      un-prefixed name and description. */
  lemma SystemPromptEnumerates(toolsByServer: seq<(ServerId, seq<MCPTool>)>, servers: map<ServerId, MCPServer>)
    ensures PromptHeader <= SystemPrompt(toolsByServer, servers)
    ensures var p := SystemPrompt(toolsByServer, servers);
            |PromptFooter| <= |p| && p[|p| - |PromptFooter|..] == PromptFooter
    ensures forall i :: 0 <= i < |toolsByServer| ==>
              Contains(SystemPrompt(toolsByServer, servers),
                       ServerHeading(toolsByServer[i].0,
                                     if toolsByServer[i].0 in servers then Some(servers[toolsByServer[i].0]) else None))
    ensures forall i, j :: 0 <= i < |toolsByServer| && 0 <= j < |toolsByServer[i].1| ==>
              Contains(SystemPrompt(toolsByServer, servers), ToolLine(toolsByServer[i].1[j]))
  {
    var p := SystemPrompt(toolsByServer, servers);
    assert p[|p| - |PromptFooter|..] == PromptFooter;
    forall i | 0 <= i < |toolsByServer|
      ensures Contains(p, ServerHeading(toolsByServer[i].0,
                                        if toolsByServer[i].0 in servers then Some(servers[toolsByServer[i].0]) else None))
      ensures forall j :: 0 <= j < |toolsByServer[i].1| ==> Contains(p, ToolLine(toolsByServer[i].1[j]))
    {
      var (s, tools) := toolsByServer[i];
      var section := SectionList(toolsByServer, servers)[i];
      SectionInPrompt(toolsByServer, servers, i);
      SectionLines(s, tools, servers);
      ContainsWithin(p, section, ServerHeading(s, if s in servers then Some(servers[s]) else None));
      forall j | 0 <= j < |tools| ensures Contains(p, ToolLine(tools[j])) {
        ContainsWithin(p, section, ToolLine(tools[j]));
      }
    }
  }

  // ---------------------------------------------------------------------
  // One user message (`processUserMessage`)

  /** What `processUserMessage` returns. */
  datatype ChatReply = ChatReply(response: string, toolsUsed: seq<string>, mcpServersUsed: seq<ServerId>)

  const NoResponse: string := "No response"

  /** `output?.message?.content?.[0]?.text ?? 'No response'`. */
  function FirstText(out: ConverseOutput): string
  {
    if out.message.Some? && |out.message.value.content| > 0 && out.message.value.content[0].Text? then
      out.message.value.content[0].text
    else NoResponse
  }

  /** The tool-use blocks of the model's message, in message order; none without a message. */
  function ToolUseBlocks(out: ConverseOutput): (r: seq<ContentBlock>)
    ensures forall b :: b in r <==> out.message.Some? && b in out.message.value.content && b.ToolUse?
    ensures out.message.None? ==> r == []
    ensures out.message.Some? ==> r == FilterToolUse(out.message.value.content)
  {
    if out.message.None? then [] else FilterToolUse(out.message.value.content)
  }

  /** `filter((c) => c.toolUse)`. */
  function FilterToolUse(blocks: seq<ContentBlock>): (r: seq<ContentBlock>)
    ensures forall b :: b in r <==> b in blocks && b.ToolUse?
    ensures |blocks| == 1 ==> r == (if blocks[0].ToolUse? then blocks else [])
  {
    if blocks == [] then []
    else (if blocks[0].ToolUse? then [blocks[0]] else []) + FilterToolUse(blocks[1..])
  }

  /** `filter` keeps message order and repeats: filtering a concatenation
      concatenates the filterings. */
  lemma {:induction false} FilterToolUseAppend(a: seq<ContentBlock>, b: seq<ContentBlock>)
    ensures FilterToolUse(a + b) == FilterToolUse(a) + FilterToolUse(b)
    decreases |a|
  {
    if a == [] {
      assert a + b == b;
    } else {
      assert (a + b)[0] == a[0] && (a + b)[1..] == a[1..] + b;
      FilterToolUseAppend(a[1..], b);
    }
  }

  /** `processUserMessage`. `sent` lists the requests sent to the model, in order:
      the first carries the registry's flattened tools and the system prompt,
      the second (only after a tool-use stop) the tool reports and neither. */
  method ProcessUserMessage(modelId: string, sessionId: string, rawMessages: seq<Message>,
                            mcp: MCPManager,
                            listTools: Client -> Option<seq<MCPTool>>,
                            callTool: (Client, CallRequest) -> Option<CallToolResult>,
                            stringify: Json -> string,
                            inference: InferenceConfig,
                            send: ConverseInput -> Option<ConverseOutput>)
    returns (r: Result<ChatReply, BedrockError>, sent: seq<ConverseInput>)
    requires mcp.Valid()
    ensures |sent| <= 2
    ensures |rawMessages| == 0 ==> r == Err(EmptyMessages) && sent == []
    ensures |rawMessages| > 0 ==>
              var toolsByServer := Listing(mcp.clientOrder, mcp.clients, listTools);
              var first := Request(modelId, rawMessages, Some(FlattenAll(toolsByServer)),
                                   Some(SystemPrompt(toolsByServer, mcp.servers)), inference);
              && |sent| >= 1 && sent[0] == first
              && (send(first).None? ==> r == Err(SendFailed) && |sent| == 1)
              && (send(first).Some? && send(first).value.stopReason != ToolUseStop ==>
                    |sent| == 1 && r == Ok(ChatReply(FirstText(send(first).value), [], [])))
    ensures |rawMessages| > 0 ==>
              var toolsByServer := Listing(mcp.clientOrder, mcp.clients, listTools);
              var first := Request(modelId, rawMessages, Some(FlattenAll(toolsByServer)),
                                   Some(SystemPrompt(toolsByServer, mcp.servers)), inference);
              send(first).Some? && send(first).value.stopReason == ToolUseStop ==>
                var round := Round(ToolUseBlocks(send(first).value), Dictionary(toolsByServer),
                                   mcp.clients, callTool, stringify);
                var second := Request(modelId, rawMessages + round.additionalMessages, None, None, inference);
                && |sent| == 2 && sent[1] == second
                && (send(second).None? ==> r == Err(SendFailed))
                && (send(second).Some? ==>
                      r == Ok(ChatReply(FirstText(send(second).value), round.toolsUsed, round.mcpServersUsed)))
  {
    var messages := rawMessages;
    var toolsByServer := mcp.GetAvailableTools(listTools);
    var allServerTools, toolDictionary := GetMCPTools(toolsByServer);
    var systemPrompt := BuildToolSystemPrompt(toolsByServer, mcp);
    var response, sent1 := GenerateResponse(modelId, messages, Some(allServerTools), Some(systemPrompt), inference, send);
    sent := if sent1.Some? then [sent1.value] else [];
    if response.Err? {
      return Err(response.error), sent;
    }
    if response.value.stopReason == ToolUseStop {
      var toolRequests := ToolUseBlocks(response.value);
      var toolsUsed, mcpServersUsed, additionalMessages :=
        ProcessToolResponse(toolRequests, toolDictionary, mcp, callTool, stringify);
      messages := messages + additionalMessages;
      var finalResponse, sent2 := GenerateResponse(modelId, messages, None, None, inference, send);
      sent := sent + [sent2.value];
      if finalResponse.Err? {
        return Err(finalResponse.error), sent;
      }
      return Ok(ChatReply(FirstText(finalResponse.value), toolsUsed, mcpServersUsed)), sent;
    }
    r := Ok(ChatReply(FirstText(response.value), [], []));
  }

  /** The first request offers tools exactly when some connected server lists
      at least one, and always carries the system prompt. */
  lemma FirstRequestShape(modelId: string, rawMessages: seq<Message>, order: seq<ServerId>,
                          clients: map<ServerId, Client>, servers: map<ServerId, MCPServer>,
                          listTools: Client -> Option<seq<MCPTool>>, inference: InferenceConfig)
    requires forall id :: id in order ==> id in clients
    ensures var toolsByServer := Listing(order, clients, listTools);
            var first := Request(modelId, rawMessages, Some(FlattenAll(toolsByServer)),
                                 Some(SystemPrompt(toolsByServer, servers)), inference);
            && (first.toolConfig.Some? <==> exists i :: 0 <= i < |order| && |ListingOrEmpty(listTools(clients[order[i]]))| > 0)
            && first.system == Some([SystemText(SystemPrompt(toolsByServer, servers))])
  {
    var toolsByServer := Listing(order, clients, listTools);
    FlattenEmptyIffNoTools(toolsByServer);
    SystemPromptEnumerates(toolsByServer, servers);
  }

  /** There are no pairs exactly when no server lists a tool. */
  lemma {:induction false} PairCountZero(toolsByServer: seq<(ServerId, seq<MCPTool>)>)
    ensures PairCount(toolsByServer) == 0 <==> forall i :: 0 <= i < |toolsByServer| ==> |toolsByServer[i].1| == 0
  {
    if toolsByServer != [] {
      var pre := toolsByServer[..|toolsByServer| - 1];
      PairCountZero(pre);
      if PairCount(toolsByServer) == 0 {
        forall i | 0 <= i < |toolsByServer| ensures |toolsByServer[i].1| == 0 {
          if i < |pre| { assert toolsByServer[i] == pre[i]; }
        }
      }
    }
  }

  /** The flattened list is empty exactly when no server lists a tool. */
  lemma FlattenEmptyIffNoTools(toolsByServer: seq<(ServerId, seq<MCPTool>)>)
    ensures |FlattenAll(toolsByServer)| == 0 <==> forall i :: 0 <= i < |toolsByServer| ==> |toolsByServer[i].1| == 0
  {
    FlattenAllPairs(toolsByServer);
    PairCountZero(toolsByServer);
  }
}
