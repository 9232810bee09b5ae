/** The tool vocabulary: the names of the schemas offered to the model, the
    tools the server runs itself, and the categories the websocket handler
    sorts a requested tool into. */
module ToolRegistry {
  import opened Common

  /** Names of `TOOL_SCHEMAS`, in the order they are offered to the model. */
  const ToolSchemaNames: seq<string> :=
    ["run_bash_command", "ask_user", "terminate", "search", "read_file",
     "edit_file", "paste_at_cursor", "add_to_memory", "fetch_from_memory"]

  /** Keys of `SERVER_EXECUTABLE_TOOLS`. */
  const ServerExecutableTools: set<string> := {"search", "add_to_memory", "fetch_from_memory"}

  /** The tools the handler forwards to the desktop client. */
  const ClientTools: seq<string> := ["run_bash_command", "read_file", "edit_file", "paste_at_cursor"]

  /** The browser tool, whose schema and registry entry are disabled. */
  const BrowserUser: string := "browser_user"

  /** Where the handler sends a requested tool, tried in this order:
      the server registry, the client list, `ask_user`, `terminate`. */
  datatype Category = ServerTool | ClientTool | AskUser | Terminate | Unknown

  function CategoryOf(name: string): (c: Category)
    ensures c == ServerTool <==> name in ServerExecutableTools
    ensures c == ClientTool <==> name !in ServerExecutableTools && name in ClientTools
    ensures c == AskUser <==> name == "ask_user"
    ensures c == Terminate <==> name == "terminate"
  {
    if name in ServerExecutableTools then ServerTool
    else if name in ClientTools then ClientTool
    else if name == "ask_user" then AskUser
    else if name == "terminate" then Terminate
    else Unknown
  }

  /** There are nine schemas, each under its own name, and the browser tool
      is neither offered nor run by the server. */
  lemma SchemasDistinct()
    ensures |ToolSchemaNames| == 9
    ensures forall j, k :: 0 <= j < k < |ToolSchemaNames| ==> ToolSchemaNames[j] != ToolSchemaNames[k]
    ensures BrowserUser !in ToolSchemaNames && BrowserUser !in ServerExecutableTools
  {
  }

  /** Every tool the server can run is offered to the model as a schema. */
  lemma ServerToolsOffered()
    ensures forall n :: n in ServerExecutableTools ==> n in ToolSchemaNames
  {
  }

  /** Every offered schema name lands in one known handler category, and
      the categories partition the schema names: three server tools, four
      client tools, `ask_user` and `terminate`. */
  lemma SchemasRouted()
    ensures forall n :: n in ToolSchemaNames ==> CategoryOf(n) != Unknown
    ensures forall n :: n in ToolSchemaNames ==> (CategoryOf(n) == ServerTool <==> n in ServerExecutableTools)
    ensures forall n :: n in ClientTools ==> n in ToolSchemaNames && CategoryOf(n) == ClientTool
    ensures (set n | n in ToolSchemaNames && CategoryOf(n) == ServerTool) == ServerExecutableTools
  {
  }

  /** A configured search client, holding its key. */
  datatype TavilyClient = TavilyClient(apiKey: string)

  /** The module-level search client, built from `TAVILY_API_KEY`. */
  function TavilyClientFor(key: Option<string>): (c: Option<TavilyClient>)
    ensures c.None? <==> (key.None? || key.value == "")
    ensures c.Some? ==> c.value.apiKey == key.value
  {
    if Truthy(key) then Some(TavilyClient(key.value)) else None
  }
}
