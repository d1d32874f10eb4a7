/** The MCP server's tool registry as the tool handlers see it: the names
    registered so far, in registration order. */
module Registry {

  class ToolServer {
    var tools: seq<string>

    constructor()
      ensures tools == []
    {
      tools := [];
    }

    /** `server.registerTool(name, …)`: the tool is added after the ones
        already registered. */
    method RegisterTool(name: string)
      modifies this
      ensures tools == old(tools) + [name]
    {
      tools := tools + [name];
    }

    /** A run of `registerTool` calls, one per name, in the order given. */
    method RegisterEach(names: seq<string>)
      modifies this
      ensures tools == old(tools) + names
    {
      var i := 0;
      while i < |names|
        invariant 0 <= i <= |names|
        invariant tools == old(tools) + names[..i]
      {
        RegisterTool(names[i]);
        i := i + 1;
      }
    }
  }
}
