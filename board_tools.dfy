/** The board tools other than `search_board`: which of them the server
    registers, the client call each makes with its arguments, and how each
    turns the call's outcome into a response. Optional arguments that were
    not given are `Undefined`. */
module BoardTools {
  import opened JsValue
  import opened Responses
  import opened Registry
  import Requests
  import B = BoardClient

  datatype BoardTool =
    // read tools
    | ListBoards(params: seq<Prop>)
    | GetColumns(boardId: int)
    | GetLanes(boardId: int)
    | GetLane(laneId: int)
    | GetCurrentBoardStructure(boardId: int)
    // write tools
    | CreateBoard(name: Value, workspaceId: Value, description: Value)
    | CreateLane(workflowId: Value, name: Value, description: Value, color: Value, position: Value)
    | CreateColumn(boardId: int, workflowId: Value, section: Value, parentColumnId: Value, position: Value,
                   name: Value, limit: Value, description: Value)
    | UpdateColumn(boardId: int, columnId: int, name: Value, limit: Value, section: Value, position: Value, description: Value)
    | DeleteColumn(boardId: int, columnId: int)

  /** The tools that change something. */
  predicate IsWrite(t: BoardTool)
  {
    !(t.ListBoards? || t.GetColumns? || t.GetLanes? || t.GetLane? || t.GetCurrentBoardStructure?)
  }

  const ReadTools: seq<string> := [
    "list_boards", "search_board", "get_columns", "get_lanes", "get_lane", "get_current_board_structure"]

  const WriteTools: seq<string> := [
    "create_board", "create_lane", "create_column", "update_column", "delete_column"]

  /** `registerTools`: the six read tools always, then the five write tools
      unless the server is read-only. */
  method RegisterTools(server: ToolServer, readOnlyMode: bool)
    modifies server
    ensures server.tools == old(server.tools) + ReadTools + (if readOnlyMode then [] else WriteTools)
  {
    server.RegisterEach(ReadTools);
    if !readOnlyMode {
      server.RegisterEach(WriteTools);
    }
  }

  /** The property names the column tools send are pairwise distinct. */
  lemma ColumnKeysDistinct()
    ensures "workflow_id" != "section" && "workflow_id" != "parent_column_id" && "workflow_id" != "position"
    ensures "workflow_id" != "name" && "workflow_id" != "limit" && "workflow_id" != "description"
    ensures "section" != "parent_column_id" && "section" != "position" && "section" != "name"
    ensures "section" != "limit" && "section" != "description"
    ensures "parent_column_id" != "position" && "parent_column_id" != "name"
    ensures "parent_column_id" != "limit" && "parent_column_id" != "description"
    ensures "position" != "name" && "position" != "limit" && "position" != "description"
    ensures "name" != "limit" && "name" != "description" && "limit" != "description"
  {
    assert "workflow_id"[0] != "description"[0];
  }

  /** A fresh server registers every read tool and, exactly when it is
      writable, every write tool: 6 tools read-only, 11 otherwise. */
  method RegisteredTools(readOnlyMode: bool) returns (names: seq<string>)
    ensures |names| == if readOnlyMode then 6 else 11
    ensures forall n :: n in ReadTools ==> n in names
    ensures forall n :: n in WriteTools ==> (n in names <==> !readOnlyMode)
  {
    var server := new ToolServer();
    RegisterTools(server, readOnlyMode);
    names := server.tools;
    assert forall n :: n in WriteTools ==> n !in ReadTools;
  }

  /** The properties a sub-column is created with, in the order the
      object literal names them: its parent, its position and its name. */
  function SubColumnBase(parentColumnId: Value, position: Value, name: Value): (r: seq<Prop>)
    ensures UniqueKeys(r)
    ensures Has(r, "parent_column_id") && Get(r, "parent_column_id") == parentColumnId
    ensures Has(r, "position") && Get(r, "position") == position
    ensures Has(r, "name") && Get(r, "name") == name
    ensures !Has(r, "workflow_id") && !Has(r, "section") && !Has(r, "limit") && !Has(r, "description")
    ensures forall k :: Has(r, k) ==> k in ColumnKeys
  {
    ColumnKeysDistinct();
    var r := [Prop("parent_column_id", parentColumnId), Prop("position", position), Prop("name", name)];
    IndexOfDistinct(r, 0);
    IndexOfDistinct(r, 1);
    IndexOfDistinct(r, 2);
    r
  }

  /** The properties a main column is created with, in the order the
      object literal names them: its workflow, its section, its position
      and its name. */
  function MainColumnBase(workflowId: Value, section: Value, position: Value, name: Value): (r: seq<Prop>)
    ensures UniqueKeys(r)
    ensures Has(r, "workflow_id") && Get(r, "workflow_id") == workflowId
    ensures Has(r, "section") && Get(r, "section") == section
    ensures Has(r, "position") && Get(r, "position") == position
    ensures Has(r, "name") && Get(r, "name") == name
    ensures !Has(r, "parent_column_id") && !Has(r, "limit") && !Has(r, "description")
    ensures forall k :: Has(r, k) ==> k in ColumnKeys
  {
    ColumnKeysDistinct();
    var r := [Prop("workflow_id", workflowId), Prop("section", section), Prop("position", position), Prop("name", name)];
    IndexOfDistinct(r, 0);
    IndexOfDistinct(r, 1);
    IndexOfDistinct(r, 2);
    IndexOfDistinct(r, 3);
    r
  }

  /** The properties every column created names first: its parent, for a
      sub-column (a truthy parent), or else its workflow and section; then
      its position and name. */
  function ColumnBase(workflowId: Value, section: Value, parentColumnId: Value, position: Value, name: Value): (r: seq<Prop>)
    ensures UniqueKeys(r)
    ensures Has(r, "parent_column_id") <==> Truthy(parentColumnId)
    ensures Has(r, "workflow_id") <==> !Truthy(parentColumnId)
    ensures Has(r, "section") <==> !Truthy(parentColumnId)
    ensures Has(r, "position") && Has(r, "name") && !Has(r, "limit") && !Has(r, "description")
    ensures Truthy(parentColumnId) ==> Get(r, "parent_column_id") == parentColumnId
    ensures !Truthy(parentColumnId) ==> Get(r, "workflow_id") == workflowId && Get(r, "section") == section
    ensures Get(r, "position") == position && Get(r, "name") == name
    ensures forall k :: Has(r, k) ==> k in ColumnKeys
  {
    if Truthy(parentColumnId) then SubColumnBase(parentColumnId, position, name)
    else MainColumnBase(workflowId, section, position, name)
  }

  /** The parameters `create_column` sends, built as its object literal
      is: the base properties, then `limit` whenever it was given, then
      `description` only when it is non-empty. Spreading a one-property
      object whose name is new appends that property. */
  function CreateColumnParams(workflowId: Value, section: Value, parentColumnId: Value, position: Value,
                              name: Value, limit: Value, description: Value): (r: seq<Prop>)
    ensures var base := ColumnBase(workflowId, section, parentColumnId, position, name);
      forall k :: k != "limit" && k != "description" ==> Has(r, k) == Has(base, k) && Get(r, k) == Get(base, k)
    ensures UniqueKeys(r)
    ensures Has(r, "limit") <==> limit != Undefined
    ensures Has(r, "description") <==> Truthy(description)
    ensures limit != Undefined ==> Get(r, "limit") == limit
    ensures Truthy(description) ==> Get(r, "description") == description
    ensures forall k :: Has(r, k) ==> k in ColumnKeys
  {
    ColumnKeysDistinct();
    var base := ColumnBase(workflowId, section, parentColumnId, position, name);
    var withLimit := if limit != Undefined then Put(base, "limit", limit) else base;
    if Truthy(description) then Put(withLimit, "description", description) else withLimit
  }

  /** Every name `create_column` can send. */
  const ColumnKeys: set<string> := {"workflow_id", "section", "parent_column_id", "position", "name", "limit", "description"}

  /** The fields `update_column` may send, in the order it checks them. */
  function UpdateColumnFields(name: Value, limit: Value, section: Value, position: Value, description: Value): seq<Prop>
  {
    [Prop("name", name), Prop("limit", limit), Prop("section", section), Prop("position", position), Prop("description", description)]
  }

  /** The parameters `update_column` sends, gathered one `if` at a time:
      every field that was given, in order, and no other. */
  method UpdateColumnParams(name: Value, limit: Value, section: Value, position: Value, description: Value) returns (params: seq<Prop>)
    ensures params == Defined(UpdateColumnFields(name, limit, section, position, description))
  {
    var fields := UpdateColumnFields(name, limit, section, position, description);
    UpdateFieldsUnique(name, limit, section, position, description);
    params := [];
    assert params == Defined(fields[..0]);
    params := SetIfDefined(params, fields, 0);
    params := SetIfDefined(params, fields, 1);
    params := SetIfDefined(params, fields, 2);
    params := SetIfDefined(params, fields, 3);
    params := SetIfDefined(params, fields, 4);
    assert fields[..5] == fields;
  }

  /** One `if (v !== undefined) params[k] = v` step of `update_column`. */
  method SetIfDefined(params: seq<Prop>, fields: seq<Prop>, j: nat) returns (r: seq<Prop>)
    requires j < |fields| && UniqueKeys(fields)
    requires params == Defined(fields[..j])
    ensures r == Defined(fields[..j + 1])
  {
    r := params;
    if fields[j].val != Undefined {
      r := Put(r, fields[j].key, fields[j].val);
    }
    DefinedExtend(fields, j);
  }

  /** The candidate fields of `update_column` have distinct names. */
  lemma UpdateFieldsUnique(name: Value, limit: Value, section: Value, position: Value, description: Value)
    ensures UniqueKeys(UpdateColumnFields(name, limit, section, position, description))
  {
    ColumnKeysDistinct();
  }

  /** `description || null`: an empty or missing description is sent as null. */
  function OrNull(v: Value): (r: Value)
    ensures Truthy(v) ==> r == v
    ensures !Truthy(v) ==> r == Null
  {
    if Truthy(v) then v else Null
  }

  /** The board-module method each tool calls. */
  function ClientCall(t: BoardTool): B.BoardMethod
  {
    match t
    case ListBoards(params) => B.GetBoards(Some(params))
    case GetColumns(boardId) => B.GetColumns(boardId)
    case GetLanes(boardId) => B.GetLanes(boardId)
    case GetLane(laneId) => B.GetLane(laneId)
    case GetCurrentBoardStructure(boardId) => B.GetCurrentBoardStructure(boardId)
    case CreateBoard(name, workspaceId, description) =>
      B.CreateBoard([Prop("name", name), Prop("workspace_id", workspaceId), Prop("description", description)])
    case CreateLane(workflowId, name, description, color, position) =>
      B.CreateLane([Prop("workflow_id", workflowId), Prop("name", name), Prop("description", OrNull(description)),
                    Prop("color", color), Prop("position", position)])
    case CreateColumn(boardId, workflowId, section, parentColumnId, position, name, limit, description) =>
      B.CreateColumn(boardId, CreateColumnParams(workflowId, section, parentColumnId, position, name, limit, description))
    case UpdateColumn(boardId, columnId, name, limit, section, position, description) =>
      B.UpdateColumn(boardId, columnId, Defined(UpdateColumnFields(name, limit, section, position, description)))
    case DeleteColumn(boardId, columnId) => B.DeleteColumn(boardId, columnId)
  }

  /** The two gates agree: a tool registered only on a writable server calls
      a client method that consults the read-only guard, and a tool
      registered always calls one that does not. */
  lemma WriteToolsAreGuarded(t: BoardTool)
    ensures IsWrite(t) <==> B.Describe(ClientCall(t)).guard.Some?
  {
    match t
    case ListBoards(_) | GetColumns(_) | GetLanes(_) | GetLane(_) | GetCurrentBoardStructure(_) =>
      assert !B.Mutates(ClientCall(t));
    case _ =>
      assert B.Mutates(ClientCall(t));
  }

  /** The label each handler's error response names. */
  function Operation(t: BoardTool): string
  {
    match t
    case ListBoards(_) => "fetching boards"
    case GetColumns(_) => "fetching board columns"
    case GetLanes(_) => "fetching board lanes"
    case GetLane(_) => "fetching lane details"
    case GetCurrentBoardStructure(_) => "getting current board structure"
    case CreateBoard(_, _, _) => "creating board"
    case CreateLane(_, _, _, _, _) => "creating lane"
    case CreateColumn(_, _, _, _, _, _, _, _) => "creating column"
    case UpdateColumn(_, _, _, _, _, _, _) => "updating column"
    case DeleteColumn(_, _) => "deleting column"
  }

  /** The message that precedes a success payload. */
  function SuccessMessage(t: BoardTool): Option<string>
  {
    match t
    case CreateBoard(_, _, _) => Some("Board created successfully:")
    case CreateLane(_, _, _, _, _) => Some("Lane created successfully:")
    case GetCurrentBoardStructure(_) => Some("Board structure retrieved successfully:")
    case CreateColumn(_, _, _, _, _, _, _, _) => Some("Column created successfully:")
    case UpdateColumn(_, _, _, _, _, _, _) => Some("Column updated successfully:")
    case DeleteColumn(_, _) => Some("Column deleted successfully:")
    case _ => None
  }

  /** A handler's response, given what its client call returned or threw:
      the value returned, or for `delete_column` the ids it was given, as a
      success; anything thrown as an error naming the operation. */
  function Handle(t: BoardTool, result: Result<Value>, stringify: Value -> string): (r: ToolResponse)
    ensures |r.content| == 1
    ensures r.isError.None? <==> result.Ok?
    ensures result.Throw? ==> r == CreateErrorResponse(result.error, Operation(t))
    ensures t.DeleteColumn? && result.Ok? ==>
      r == CreateSuccessResponse(Obj([Prop("board_id", Num(t.boardId)), Prop("column_id", Num(t.columnId))]),
                                 Some("Column deleted successfully:"), stringify)
    ensures !t.DeleteColumn? && result.Ok? ==> r == CreateSuccessResponse(result.value, SuccessMessage(t), stringify)
  {
    match result
    case Throw(e) => CreateErrorResponse(e, Operation(t))
    case Ok(v) =>
      if t.DeleteColumn? then
        CreateSuccessResponse(Obj([Prop("board_id", Num(t.boardId)), Prop("column_id", Num(t.columnId))]), SuccessMessage(t), stringify)
      else
        CreateSuccessResponse(v, SuccessMessage(t), stringify)
  }

  /** `create_lane` sends null for an empty or missing description and the
      description itself otherwise. */
  lemma CreateLaneDescription(workflowId: Value, name: Value, description: Value, color: Value, position: Value)
    ensures var body := B.Describe(ClientCall(CreateLane(workflowId, name, description, color, position))).request.body;
      && body.Some? && body.value.Obj?
      && Get(body.value.props, "description") == (if Truthy(description) then description else Null)
  {
    var props := [Prop("workflow_id", workflowId), Prop("name", name), Prop("description", OrNull(description)),
                  Prop("color", color), Prop("position", position)];
    assert B.Describe(B.CreateLane(props)).request.body == Some(Obj(props));
    assert IndexOf(props, "description") == 2 by {
      assert props[0].key != "description" && props[1].key != "description";
      assert props[2..][0].key == "description";
      assert IndexOf(props[2..], "description") == 0;
      assert props[1..][1..] == props[2..];
    }
  }

  /** `update_column` sends to the column it names exactly the fields it
      was given. */
  lemma UpdateColumnRequest(boardId: int, columnId: int, name: Value, limit: Value, section: Value, position: Value,
                            description: Value, k: string)
    ensures var r := B.Describe(ClientCall(UpdateColumn(boardId, columnId, name, limit, section, position, description))).request;
      var fields := UpdateColumnFields(name, limit, section, position, description);
      && r.path == ["boards", Requests.Id(boardId), "columns", Requests.Id(columnId)]
      && r.body.Some? && r.body.value.Obj?
      && (Has(r.body.value.props, k) <==> Has(fields, k) && Get(fields, k) != Undefined)
      && Get(r.body.value.props, k) == Get(fields, k)
  {
    var fields := UpdateColumnFields(name, limit, section, position, description);
    UpdateFieldsUnique(name, limit, section, position, description);
    DefinedGet(fields, k);
    var m := B.UpdateColumn(boardId, columnId, Defined(fields));
    assert ClientCall(UpdateColumn(boardId, columnId, name, limit, section, position, description)) == m;
    B.ColumnPath(m);
  }
}
