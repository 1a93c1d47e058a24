/**
 * `MCPToolsDropdown`: the chat's choice of MCP servers. A selection names
 * servers, lists the tools they bring and carries the config object handed to
 * the agent, one entry per selected server name. Every change is kept
 * locally and reported to the parent; the reports are logged.
 */
module ToolsDropdown {
  import opened Wrappers
  import opened Strings
  import opened JsObject
  import opened McpTypes
  import opened McpTools

  /** One entry of the agent's config: transport, url and, when the server has them, headers. */
  datatype ConfigEntry = ConfigEntry(transport: string, url: string, headers: Option<map<string, string>>)

  datatype Selection = Selection(selectedServers: seq<string>, selectedTools: seq<string>, mcpConfig: Entries<ConfigEntry>)

  /** `{ transport: server.transport || 'sse', url: server.url || '', ...(server.headers && { headers }) }`. */
  function EntryOf(s: ServerWithTools): (e: ConfigEntry)
    ensures e.transport == (if TruthyOpt(s.transport) then s.transport.value else "sse")
    ensures e.url == (if TruthyOpt(s.url) then s.url.value else "")
    ensures e.headers == s.headers
  {
    ConfigEntry(if TruthyOpt(s.transport) then s.transport.value else "sse",
                if TruthyOpt(s.url) then s.url.value else "",
                s.headers)
  }

  function ServerNameOf(s: ServerWithTools): string { s.serverName }

  /** `selectedServerNames.includes(server.serverName)`. */
  function IsSelected(names: seq<string>): ServerWithTools -> bool {
    (s: ServerWithTools) => s.serverName in names
  }

  /** The config object `buildMcpConfig` returns: each selected server assigned under its name, in list order. */
  function ConfigFor(servers: seq<ServerWithTools>, names: seq<string>): Entries<ConfigEntry> {
    FromList(servers, IsSelected(names), ServerNameOf, EntryOf)
  }

  /** `buildMcpConfig(selectedServerNames)`: the filter and the `forEach` that fills the object. */
  method BuildMcpConfig(servers: seq<ServerWithTools>, names: seq<string>) returns (config: Entries<ConfigEntry>)
    ensures config == ConfigFor(servers, names)
  {
    config := [];
    var i := 0;
    while i < |servers|
      invariant 0 <= i <= |servers|
      invariant config == FromList(servers[..i], IsSelected(names), ServerNameOf, EntryOf)
    {
      assert servers[..i + 1][..i] == servers[..i];
      if servers[i].serverName in names {
        config := Put(config, servers[i].serverName, EntryOf(servers[i]));
      }
      i := i + 1;
    }
    assert servers[..|servers|] == servers;
  }

  /**
   * The config holds an entry exactly for the selected names some server
   * carries, once each, and that entry is built from the last such server.
   */
  lemma {:induction false} ConfigEntries(servers: seq<ServerWithTools>, names: seq<string>, k: string)
    ensures DistinctKeys(ConfigFor(servers, names))
    ensures Get(ConfigFor(servers, names), k).Some? <==> k in names && exists i :: 0 <= i < |servers| && servers[i].serverName == k
    ensures Get(ConfigFor(servers, names), k).Some? ==>
              exists i :: 0 <= i < |servers| && servers[i].serverName == k &&
                          Get(ConfigFor(servers, names), k).value == EntryOf(servers[i]) &&
                          forall j :: i < j < |servers| ==> servers[j].serverName != k
  {
    FromListKeys(servers, IsSelected(names), ServerNameOf, EntryOf);
    FromListGet(servers, IsSelected(names), ServerNameOf, EntryOf, k);
  }

  /** `tools.map(t => t.name)`. */
  function ToolNames(tools: seq<ToolInfo>): (r: seq<string>)
    ensures |r| == |tools| && forall i :: 0 <= i < |tools| ==> r[i] == tools[i].name
  {
    seq(|tools|, i requires 0 <= i < |tools| => tools[i].name)
  }

  /** Some server in `servers` is selected by `names` and brings a tool named `t`. */
  predicate SomeSelectedHasTool(servers: seq<ServerWithTools>, names: seq<string>, t: string) {
    exists i :: 0 <= i < |servers| && servers[i].serverName in names && t in ToolNames(servers[i].tools)
  }

  /** `getToolsFromServers`: the tool names of the selected servers, server by server. */
  function ToolsFromServers(servers: seq<ServerWithTools>, names: seq<string>): (r: seq<string>)
    ensures forall t :: t in r <==> SomeSelectedHasTool(servers, names, t)
  {
    if servers == [] then []
    else
      var tail := servers[1..];
      var rest := ToolsFromServers(tail, names);
      assert forall t :: SomeSelectedHasTool(servers, names, t) <==>
                         (servers[0].serverName in names && t in ToolNames(servers[0].tools)) ||
                         SomeSelectedHasTool(tail, names, t) by {
        forall t | SomeSelectedHasTool(servers, names, t)
          ensures (servers[0].serverName in names && t in ToolNames(servers[0].tools)) || SomeSelectedHasTool(tail, names, t)
        {
          var i :| 0 <= i < |servers| && servers[i].serverName in names && t in ToolNames(servers[i].tools);
          if i > 0 {
            assert tail[i - 1] == servers[i];
          }
        }
        forall t | SomeSelectedHasTool(tail, names, t)
          ensures SomeSelectedHasTool(servers, names, t)
        {
          var i :| 0 <= i < |tail| && tail[i].serverName in names && t in ToolNames(tail[i].tools);
          assert servers[i + 1] == tail[i];
        }
      }
      (if servers[0].serverName in names then ToolNames(servers[0].tools) else []) + rest
  }

  /** One server contributes its tool names, in order, exactly when it is selected. */
  lemma ToolsFromOneServer(server: ServerWithTools, names: seq<string>)
    ensures ToolsFromServers([server], names) == if server.serverName in names then ToolNames(server.tools) else []
  {
    assert [server][1..] == [];
  }

  /** The tool list is built server by server in `mcpServers` order: it distributes over concatenation. */
  lemma {:induction false} ToolsFromServersAppend(a: seq<ServerWithTools>, b: seq<ServerWithTools>, names: seq<string>)
    ensures ToolsFromServers(a + b, names) == ToolsFromServers(a, names) + ToolsFromServers(b, names)
  {
    if a == [] {
      assert a + b == b;
    } else {
      assert (a + b)[0] == a[0];
      assert (a + b)[1..] == a[1..] + b;
      ToolsFromServersAppend(a[1..], b, names);
    }
  }

  /** Nothing selected: no tools and an empty config, the selection `deselectAll` reports. */
  lemma {:induction false} NothingSelected(servers: seq<ServerWithTools>)
    ensures ToolsFromServers(servers, []) == []
    ensures ConfigFor(servers, []) == []
  {
    if servers != [] {
      NothingSelected(servers[1..]);
      NothingSelected(servers[..|servers| - 1]);
    }
  }

  /** `selectedServers.filter(s => s !== name)`. */
  function Without(names: seq<string>, name: string): (r: seq<string>)
    ensures |r| <= |names|
    ensures forall x :: x in r <==> x in names && x != name
  {
    if names == [] then []
    else (if names[0] != name then [names[0]] else []) + Without(names[1..], name)
  }

  /** Removing a name that is absent changes nothing. */
  lemma {:induction false} WithoutAbsent(names: seq<string>, name: string)
    requires name !in names
    ensures Without(names, name) == names
  {
    if names != [] {
      assert names[1..] + [] == names[1..];
      WithoutAbsent(names[1..], name);
      assert [names[0]] + names[1..] == names;
    }
  }

  /** Removal distributes over concatenation. */
  lemma {:induction false} WithoutAppend(a: seq<string>, b: seq<string>, name: string)
    ensures Without(a + b, name) == Without(a, name) + Without(b, name)
  {
    if a == [] {
      assert a + b == b;
    } else {
      assert (a + b)[1..] == a[1..] + b;
      WithoutAppend(a[1..], b, name);
    }
  }

  /** `toggleServer`'s new list: the name removed (every copy) when present, appended when absent. */
  function ToggleServer(selected: seq<string>, name: string): (r: seq<string>)
    ensures name in r <==> name !in selected
    ensures forall x :: x != name ==> (x in r <==> x in selected)
  {
    if name in selected then Without(selected, name) else selected + [name]
  }

  /** Toggling an unselected server on and off again restores the list. */
  lemma {:induction false} ToggleTwice(selected: seq<string>, name: string)
    requires name !in selected
    ensures ToggleServer(ToggleServer(selected, name), name) == selected
  {
    WithoutAppend(selected, [name], name);
    WithoutAbsent(selected, name);
    assert Without([name], name) == [];
  }

  /** `mcpServers.map(server => server.serverName)`. */
  function ServerNames(servers: seq<ServerWithTools>): (r: seq<string>)
    ensures |r| == |servers| && forall i :: 0 <= i < |servers| ==> r[i] == servers[i].serverName
  {
    seq(|servers|, i requires 0 <= i < |servers| => servers[i].serverName)
  }

  /** After "select all" the config has an entry for every server name and the tools of every server. */
  lemma {:induction false} SelectAllCoversEverything(servers: seq<ServerWithTools>, i: nat, t: string)
    requires i < |servers|
    ensures Get(ConfigFor(servers, ServerNames(servers)), servers[i].serverName).Some?
    ensures t in ToolNames(servers[i].tools) ==> t in ToolsFromServers(servers, ServerNames(servers))
  {
    ConfigEntries(servers, ServerNames(servers), servers[i].serverName);
  }

  class Dropdown {
    const mcpServers: seq<ServerWithTools>
    var localSelection: Selection
    /** Every selection passed to `onSelectionChange`, in order. */
    var emitted: seq<Selection>

    constructor (mcpServers: seq<ServerWithTools>, selection: Selection)
      ensures this.mcpServers == mcpServers && localSelection == selection && emitted == []
    {
      this.mcpServers := mcpServers;
      localSelection := selection;
      emitted := [];
    }

    /** The effect that copies a new parent selection into the local one. */
    method Sync(selection: Selection)
      modifies this`localSelection
      ensures localSelection == selection
    {
      localSelection := selection;
    }

    /** The selection built for a list of server names: those names, their tools and their config. */
    method SelectionFor(names: seq<string>) returns (sel: Selection)
      ensures sel == Selection(names, ToolsFromServers(mcpServers, names), ConfigFor(mcpServers, names))
    {
      var config := BuildMcpConfig(mcpServers, names);
      sel := Selection(names, ToolsFromServers(mcpServers, names), config);
    }

    /** `toggleServer(name)`. */
    method Toggle(name: string)
      modifies this`localSelection, this`emitted
      ensures var names := ToggleServer(old(localSelection).selectedServers, name);
              localSelection == Selection(names, ToolsFromServers(mcpServers, names), ConfigFor(mcpServers, names))
      ensures emitted == old(emitted) + [localSelection]
    {
      var sel := SelectionFor(ToggleServer(localSelection.selectedServers, name));
      localSelection := sel;
      emitted := emitted + [sel];
    }

    /** `selectAll()`: every server by name. */
    method SelectAll()
      modifies this`localSelection, this`emitted
      ensures var names := ServerNames(mcpServers);
              localSelection == Selection(names, ToolsFromServers(mcpServers, names), ConfigFor(mcpServers, names))
      ensures emitted == old(emitted) + [localSelection]
    {
      var sel := SelectionFor(ServerNames(mcpServers));
      localSelection := sel;
      emitted := emitted + [sel];
    }

    /** `deselectAll()`: the empty selection, the same one an empty name list builds. */
    method DeselectAll()
      modifies this`localSelection, this`emitted
      ensures localSelection == Selection([], [], [])
      ensures localSelection == Selection([], ToolsFromServers(mcpServers, []), ConfigFor(mcpServers, []))
      ensures emitted == old(emitted) + [localSelection]
    {
      NothingSelected(mcpServers);
      localSelection := Selection([], [], []);
      emitted := emitted + [localSelection];
    }
  }
}
