/** The board module of the API client: each method as the call it makes. */
module BoardClient {
  import opened JsValue
  import opened Text
  import opened Requests

  datatype BoardMethod =
    | GetBoards(filters: Option<seq<Prop>>)
    | GetBoard(boardId: int)
    | CreateBoard(params: seq<Prop>)
    | UpdateBoard(boardId: int, params: seq<Prop>)
    | DeleteBoard(boardId: int)
    | GetBoardStructure(boardId: int)
    | GetColumns(boardId: int)
    | GetLanes(boardId: int)
    | GetLane(laneId: int)
    | CreateLane(params: seq<Prop>)
    | GetCurrentBoardStructure(boardId: int)
    | CreateColumn(boardId: int, params: seq<Prop>)
    | UpdateColumn(boardId: int, columnId: int, params: seq<Prop>)
    | DeleteColumn(boardId: int, columnId: int)

  /** The methods whose path names one board by a numeric id. */
  predicate BoardScoped(m: BoardMethod)
  {
    !(m.GetBoards? || m.CreateBoard? || m.GetLane? || m.CreateLane?)
  }

  /** The methods that change something upstream. */
  predicate Mutates(m: BoardMethod)
  {
    match m
    case GetBoards(_) | GetBoard(_) | GetBoardStructure(_) | GetColumns(_) | GetLanes(_) | GetLane(_)
       | GetCurrentBoardStructure(_) => false
    case _ => true
  }

  /** The call each method makes. Methods that change something call the
      guard first and use a verb other than GET; only `getBoards` sends
      query parameters; reads and deletions send no body; only the
      deletions return nothing. */
  function Describe(m: BoardMethod): (c: Call)
    ensures GuardedIffMutating(c)
    ensures c.guard.Some? <==> Mutates(m)
    ensures c.request.query.Some? <==> m.GetBoards?
    ensures c.request.verb == GET || c.request.verb == DELETE ==> c.request.body.None?
    ensures c.returnsData <==> c.request.verb != DELETE
    ensures BoardScoped(m) ==> |c.request.path| >= 2 && c.request.path[0] == "boards" && c.request.path[1] == Id(m.boardId)
  {
    match m
    case GetBoards(filters) =>
      Call(None, Request(GET, ["boards"], Some(if filters.Some? then filters.value else []), None), true)
    case GetBoard(boardId) => Read(["boards", Id(boardId)])
    case CreateBoard(params) => Guarded("create board", POST, ["boards"], Some(Obj(params)), true)
    case UpdateBoard(boardId, params) => Guarded("update board", PATCH, ["boards", Id(boardId)], Some(Obj(params)), true)
    case DeleteBoard(boardId) => Guarded("delete board", DELETE, ["boards", Id(boardId)], None, false)
    case GetBoardStructure(boardId) => Read(["boards", Id(boardId), "structure"])
    case GetColumns(boardId) => Read(["boards", Id(boardId), "columns"])
    case GetLanes(boardId) => Read(["boards", Id(boardId), "lanes"])
    case GetLane(laneId) => Read(["lanes", Id(laneId)])
    case CreateLane(params) => Guarded("create lane", POST, ["lanes"], Some(Obj(params)), true)
    case GetCurrentBoardStructure(boardId) => Read(["boards", Id(boardId), "currentStructure"])
    case CreateColumn(boardId, params) => Guarded("create column", POST, ["boards", Id(boardId), "columns"], Some(Obj(params)), true)
    case UpdateColumn(boardId, columnId, params) =>
      Guarded("update column", PATCH, ["boards", Id(boardId), "columns", Id(columnId)], Some(Obj(params)), true)
    case DeleteColumn(boardId, columnId) =>
      Guarded("delete column", DELETE, ["boards", Id(boardId), "columns", Id(columnId)], None, false)
  }

  /** The board a board-scoped request is about can be read back from the
      second segment of its path. */
  lemma BoardIdReadsBack(m: BoardMethod)
    requires BoardScoped(m)
    ensures Describe(m).request.path[0] == "boards" && ParseInt(Describe(m).request.path[1]) == Some(m.boardId)
  {
    IdReadsBack(m.boardId);
  }

  /** `getBoards` passes its filters as they are, and an empty object when
      it has none. */
  lemma GetBoardsQuery(filters: Option<seq<Prop>>)
    ensures Describe(GetBoards(filters)).request.query == Some(if filters.Some? then filters.value else [])
    ensures Describe(GetBoards(None)).request.query == Some([])
  {
    assert Describe(GetBoards(filters)) ==
      Call(None, Request(GET, ["boards"], Some(if filters.Some? then filters.value else []), None), true);
  }

  /** Updating and deleting a column both address it under its board. */
  lemma ColumnPath(m: BoardMethod)
    requires m.UpdateColumn? || m.DeleteColumn?
    ensures Describe(m).request.path == ["boards", Id(m.boardId), "columns", Id(m.columnId)]
    ensures m.UpdateColumn? ==> Describe(m).request.body == Some(Obj(m.params))
  {
    var path := ["boards", Id(m.boardId), "columns", Id(m.columnId)];
    match m
    case UpdateColumn(_, _, params) =>
      assert Describe(m) == Guarded("update column", PATCH, path, Some(Obj(params)), true);
    case DeleteColumn(_, _) =>
      assert Describe(m) == Guarded("delete column", DELETE, path, None, false);
  }

  /** A lane is addressed by its own id alone, with no board in the path. */
  lemma LanePath(laneId: int)
    ensures Describe(GetLane(laneId)).request.path == ["lanes", Id(laneId)]
    ensures "boards" !in Describe(GetLane(laneId)).request.path
  {
    assert Describe(GetLane(laneId)) == Read(["lanes", Id(laneId)]);
    assert Id(laneId) != "boards" by {
      var s := Id(laneId);
      if laneId >= 0 {
        assert IsDigit(NatToString(laneId)[0]);
      }
      assert s[0] == '-' || IsDigit(s[0]);
      assert "boards"[0] == 'b';
    }
  }
}
