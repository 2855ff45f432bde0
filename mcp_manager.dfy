/**
 * The process-wide registry of tool-server connections (`MCPManager`): one
 * client per connected server id, the descriptor of every server that was
 * ever connected, and the lookup, listing and dispatch rules over them.
 * The protocol SDK's `connect`, `close`, `listTools` and `callTool` enter as
 * their outcomes.
 */
module McpRegistry {
  import opened Common

  type ServerId = string

  /** A tool server as configured. */
  datatype MCPServer = MCPServer(id: ServerId, name: string, description: string, remoteUrl: string)

  /** A tool as a server advertises it. */
  datatype MCPTool = MCPTool(name: string, description: Option<string>, inputSchema: Json)

  /** A protocol client: the identity it announces and the URL of its transport. */
  datatype Client = Client(clientName: string, version: string, remoteUrl: string)

  /** The arguments of a `callTool` request. */
  datatype CallRequest = CallRequest(name: string, arguments: Json)

  /** What a tool call returns; the orchestrator reads only its content. */
  datatype CallToolResult = CallToolResult(content: Json)

  datatype McpError =
    | ConnectFailed(serverId: ServerId)
    | CloseFailed(serverId: ServerId)
    | NotConnected(serverId: ServerId)
    | CallFailed(serverId: ServerId, toolName: string)

  const ClientVersion: string := "1.0.0"

  /** The client `connectServer` creates for a server: named `<id>-client`, version 1.0.0. */
  function ClientFor(server: MCPServer): (c: Client)
    ensures c.clientName == server.id + "-client" && c.version == "1.0.0"
    ensures c.remoteUrl == server.remoteUrl
  {
    Client(server.id + "-client", ClientVersion, server.remoteUrl)
  }

  /** `s` without `x`. */
  function Without(s: seq<ServerId>, x: ServerId): (r: seq<ServerId>)
    ensures forall y :: y in r <==> y in s && y != x
    ensures |r| <= |s|
    ensures |s| == 1 ==> r == (if s[0] == x then [] else s)
  {
    if s == [] then []
    else if s[0] == x then Without(s[1..], x)
    else [s[0]] + Without(s[1..], x)
  }

  /** Removal keeps the order of the other ids: removing from a
      concatenation concatenates the removals. */
  lemma {:induction false} WithoutAppend(a: seq<ServerId>, b: seq<ServerId>, x: ServerId)
    ensures Without(a + b, x) == Without(a, x) + Without(b, x)
    decreases |a|
  {
    if a == [] {
      assert a + b == b;
    } else {
      assert (a + b)[0] == a[0] && (a + b)[1..] == a[1..] + b;
      WithoutAppend(a[1..], b, x);
    }
  }

  /** Removing `x` from an order that ends in `y` keeps `y` last unless it is `x`. */
  lemma WithoutSnoc(a: seq<ServerId>, y: ServerId, x: ServerId)
    ensures Without(a + [y], x) == Without(a, x) + (if y == x then [] else [y])
  {
    WithoutAppend(a, [y], x);
  }

  predicate NoDuplicates(s: seq<ServerId>)
  {
    forall i, j :: 0 <= i < j < |s| ==> s[i] != s[j]
  }

  lemma {:induction false} WithoutKeepsNoDuplicates(s: seq<ServerId>, x: ServerId)
    requires NoDuplicates(s)
    ensures NoDuplicates(Without(s, x))
    decreases |s|
  {
    if s != [] {
      assert NoDuplicates(s[1..]) by {
        forall i, j | 0 <= i < j < |s[1..]| ensures s[1..][i] != s[1..][j] {
          assert s[1..][i] == s[i + 1] && s[1..][j] == s[j + 1];
        }
      }
      WithoutKeepsNoDuplicates(s[1..], x);
      if s[0] != x {
        assert s[0] !in s[1..];
        assert s[0] !in Without(s[1..], x);
      }
    }
  }

  class MCPManager {
    /** The `clients` Map: the live client of each connected server. */
    var clients: map<ServerId, Client>
    /** The iteration order of the `clients` Map: insertion order of its keys. */
    var clientOrder: seq<ServerId>
    /** The `servers` Map: the descriptor of every server connected so far. */
    var servers: map<ServerId, MCPServer>

    ghost predicate Valid()
      reads this
    {
      && NoDuplicates(clientOrder)
      && (forall id :: id in clientOrder <==> id in clients)
    }

    constructor ()
      ensures Valid()
      ensures clients == map[] && clientOrder == [] && servers == map[]
    {
      clients := map[];
      clientOrder := [];
      servers := map[];
    }

    /** `connectServer`: `connected` is the outcome of the awaited `connect`
        (which also covers a malformed URL). Both maps change only after it succeeds. */
    method ConnectServer(server: MCPServer, connected: bool) returns (r: Result<(), McpError>)
      requires Valid()
      modifies this
      ensures Valid()
      ensures r.Ok? <==> connected
      ensures !connected ==>
                r == Err(ConnectFailed(server.id)) &&
                clients == old(clients) && clientOrder == old(clientOrder) && servers == old(servers)
      ensures connected ==>
                && clients == old(clients)[server.id := ClientFor(server)]
                && servers == old(servers)[server.id := server]
                && clientOrder == if server.id in old(clients) then old(clientOrder)
                                  else old(clientOrder) + [server.id]
    {
      if !connected {
        return Err(ConnectFailed(server.id));
      }
      if server.id !in clients {
        clientOrder := clientOrder + [server.id];
      }
      clients := clients[server.id := ClientFor(server)];
      servers := servers[server.id := server];
      r := Ok(());
    }

    /** `disconnectServer`: `closed` is the outcome of the awaited `close`.
        Only `clients` loses the id; `servers` keeps its entry. */
    method DisconnectServer(serverId: ServerId, closed: bool) returns (r: Result<(), McpError>)
      requires Valid()
      modifies this
      ensures Valid()
      ensures servers == old(servers)
      ensures serverId !in old(clients) ==>
                r.Ok? && clients == old(clients) && clientOrder == old(clientOrder)
      ensures serverId in old(clients) && !closed ==>
                r == Err(CloseFailed(serverId)) &&
                clients == old(clients) && clientOrder == old(clientOrder)
      ensures serverId in old(clients) && closed ==>
                r.Ok? && clients == old(clients) - {serverId} &&
                clientOrder == Without(old(clientOrder), serverId)
    {
      if serverId !in clients {
        return Ok(());
      }
      if !closed {
        return Err(CloseFailed(serverId));
      }
      WithoutKeepsNoDuplicates(clientOrder, serverId);
      clients := clients - {serverId};
      clientOrder := Without(clientOrder, serverId);
      r := Ok(());
    }

    /** `getServerConfig`: the descriptor stored for the id, if any. */
    function GetServerConfig(serverId: ServerId): (r: Option<MCPServer>)
      reads this
      ensures r.Some? <==> serverId in servers
      ensures r.Some? ==> r.value == servers[serverId]
    {
      if serverId in servers then Some(servers[serverId]) else None
    }

    /** `getAvailableTools`: one entry per connected server, in the `clients`
        order; `listTools` gives each client's listing, `None` when it throws,
        and a failing server maps to `[]` without affecting the others. */
    method GetAvailableTools(listTools: Client -> Option<seq<MCPTool>>)
      returns (toolsByServer: seq<(ServerId, seq<MCPTool>)>)
      requires Valid()
      ensures |toolsByServer| == |clientOrder|
      ensures forall i :: 0 <= i < |toolsByServer| ==>
                toolsByServer[i].0 == clientOrder[i] &&
                toolsByServer[i].1 == ListingOrEmpty(listTools(clients[clientOrder[i]]))
      ensures forall id :: id in clients <==> exists i :: 0 <= i < |toolsByServer| && toolsByServer[i].0 == id
      ensures toolsByServer == Listing(clientOrder, clients, listTools)
    {
      toolsByServer := [];
      var k := 0;
      while k < |clientOrder|
        invariant 0 <= k <= |clientOrder|
        invariant |toolsByServer| == k
        invariant forall i :: 0 <= i < k ==>
                    toolsByServer[i].0 == clientOrder[i] &&
                    toolsByServer[i].1 == ListingOrEmpty(listTools(clients[clientOrder[i]]))
      {
        var serverId := clientOrder[k];
        var listing := listTools(clients[serverId]);
        match listing {
          case Some(tools) => toolsByServer := toolsByServer + [(serverId, tools)];
          case None => toolsByServer := toolsByServer + [(serverId, [])];
        }
        k := k + 1;
      }
      forall id | id in clients
        ensures exists i :: 0 <= i < |toolsByServer| && toolsByServer[i].0 == id
      {
        var i :| 0 <= i < |clientOrder| && clientOrder[i] == id;
        assert toolsByServer[i].0 == id;
      }
    }

    /** `executeCallTool`: fails for an id without a client; otherwise forwards
        the tool name and the arguments unchanged to that server's client. */
    method ExecuteCallTool(serverId: ServerId, toolName: string, args: Json,
                           callTool: (Client, CallRequest) -> Option<CallToolResult>)
      returns (r: Result<CallToolResult, McpError>)
      ensures serverId !in clients ==> r == Err(NotConnected(serverId))
      ensures serverId in clients ==>
                r == CallOutcome(serverId, toolName, callTool(clients[serverId], CallRequest(toolName, args)))
      ensures r == CallThrough(clients, serverId, toolName, args, callTool)
    {
      if serverId !in clients {
        return Err(NotConnected(serverId));
      }
      var outcome := callTool(clients[serverId], CallRequest(toolName, args));
      r := CallOutcome(serverId, toolName, outcome);
    }
  }

  /** The listing of each of the given servers, in order. */
  function Listing(order: seq<ServerId>, clients: map<ServerId, Client>,
                   listTools: Client -> Option<seq<MCPTool>>): (r: seq<(ServerId, seq<MCPTool>)>)
    requires forall id :: id in order ==> id in clients
    ensures |r| == |order|
    ensures forall i :: 0 <= i < |order| ==> r[i] == (order[i], ListingOrEmpty(listTools(clients[order[i]])))
  {
    seq(|order|, i requires 0 <= i < |order| => (order[i], ListingOrEmpty(listTools(clients[order[i]]))))
  }

  /** A listing that threw counts as an empty one. */
  function ListingOrEmpty(listing: Option<seq<MCPTool>>): seq<MCPTool>
  {
    match listing
    case Some(tools) => tools
    case None => []
  }

  /** The result of an awaited `callTool`: its value, or the error it threw. */
  function CallOutcome(serverId: ServerId, toolName: string, outcome: Option<CallToolResult>): Result<CallToolResult, McpError>
  {
    match outcome
    case Some(v) => Ok(v)
    case None => Err(CallFailed(serverId, toolName))
  }

  /** The outcome of `executeCallTool` over a given set of clients. */
  function CallThrough(clients: map<ServerId, Client>, serverId: ServerId, toolName: string, args: Json,
                       callTool: (Client, CallRequest) -> Option<CallToolResult>): (r: Result<CallToolResult, McpError>)
    ensures r.Ok? <==> serverId in clients && callTool(clients[serverId], CallRequest(toolName, args)).Some?
    ensures r.Ok? ==> r.value == callTool(clients[serverId], CallRequest(toolName, args)).value
  {
    if serverId !in clients then Err(NotConnected(serverId))
    else CallOutcome(serverId, toolName, callTool(clients[serverId], CallRequest(toolName, args)))
  }

  /** A server that was connected and later disconnected is still found by
      `getServerConfig`, but has no client, so calls to it fail. */
  method ConnectDisconnectScenario(server: MCPServer, args: Json,
                                   callTool: (Client, CallRequest) -> Option<CallToolResult>)
    returns (config: Option<MCPServer>, r: Result<CallToolResult, McpError>)
    ensures config == Some(server)
    ensures r == Err(NotConnected(server.id))
  {
    var mgr := new MCPManager();
    var c := mgr.ConnectServer(server, true);
    var d := mgr.DisconnectServer(server.id, true);
    config := mgr.GetServerConfig(server.id);
    r := mgr.ExecuteCallTool(server.id, "any", args, callTool);
  }
}
