/** The `search_board` tool: a board looked up by id (directly, then in the
    board list when the direct lookup fails), by name, or not at all, in
    which case every board is listed. The replies of the upstream calls are
    parameters, and the result records which calls were made. Boards in a
    list are objects, given by their properties. */
module BoardSearch {
  import opened JsValue
  import opened Text
  import opened Responses

  /** The client calls a search can make. */
  datatype Fetch =
    | FetchBoard(id: int)
    | FetchStructure(board: Value)
    | FetchBoards(filters: Option<seq<Prop>>)

  /** What each call would answer: `getBoard`, the `getBoardStructure` made
      alongside it, `getBoards`, and the `getBoardStructure` made for a
      board found in a list. */
  datatype Replies = Replies(
    board: Result<Value>,
    structure: Result<Value>,
    boards: Result<seq<seq<Prop>>>,
    foundStructure: Result<Value>)

  /** A search's response and the calls it made, in order. */
  datatype Searched = Searched(response: ToolResponse, fetches: seq<Fetch>)

  /** The filter a search passes to `getBoards`: the workspace when one
      was given and is not 0. */
  function WorkspaceFilter(workspaceId: Option<int>): (r: Option<seq<Prop>>)
    ensures r.Some? <==> Truthy(OptNum(workspaceId))
    ensures r.Some? ==> r.value == [Prop("workspace_id", Num(workspaceId.value))]
  {
    if Truthy(OptNum(workspaceId)) then Some([Prop("workspace_id", Num(workspaceId.value))]) else None
  }

  /** A board as a list shows it: its id, its name and its workspace, and
      nothing else. */
  function Summary(board: seq<Prop>): (r: Value)
    ensures r.Obj? && |r.props| == 3
    ensures r.props[0].key == "board_id" && r.props[1].key == "name" && r.props[2].key == "workspace_id"
    ensures Get(r.props, "board_id") == Get(board, "board_id")
    ensures Get(r.props, "name") == Get(board, "name")
    ensures Get(r.props, "workspace_id") == Get(board, "workspace_id")
    ensures forall k :: Has(r.props, k) <==> k == "board_id" || k == "name" || k == "workspace_id"
  {
    var r := [Prop("board_id", Get(board, "board_id")), Prop("name", Get(board, "name")),
              Prop("workspace_id", Get(board, "workspace_id"))];
    assert IndexOf(r, "name") == 1 by { assert r[0].key != "name"; }
    assert IndexOf(r, "workspace_id") == 2 by {
      assert r[2..] == [Prop("workspace_id", Get(board, "workspace_id"))];
      assert IndexOf(r[2..], "workspace_id") == 0;
      assert r[1..][1..] == r[2..];
      assert r[1].key != "workspace_id";
      assert IndexOf(r[1..], "workspace_id") == 1;
    }
    Obj(r)
  }

  /** `formatBoardsList`: one summary per board, in the same order. */
  function FormatBoardsList(boards: seq<seq<Prop>>): (r: seq<Value>)
    ensures |r| == |boards|
    ensures forall i :: 0 <= i < |boards| ==> r[i] == Summary(boards[i])
  {
    if boards == [] then [] else [Summary(boards[0])] + FormatBoardsList(boards[1..])
  }

  /** Every board in the list has a string name, as the board type says. */
  predicate AllNamed(boards: seq<seq<Prop>>)
  {
    forall b :: b in boards ==> Get(b, "name").Str?
  }

  /** A board matches a name when its name, lower-cased, contains the
      lower-cased name searched for. */
  predicate NameMatches(board: seq<Prop>, query: string)
    requires Get(board, "name").Str?
  {
    Contains(Lower(Get(board, "name").s), Lower(query))
  }

  /** The boards a name search keeps: exactly the matching ones, in their
      original order. */
  function Matching(boards: seq<seq<Prop>>, query: string): (r: seq<seq<Prop>>)
    requires AllNamed(boards)
    ensures |r| <= |boards|
    ensures forall b :: b in r <==> b in boards && NameMatches(b, query)
    ensures boards != [] && NameMatches(boards[0], query) ==> r != [] && r[0] == boards[0]
  {
    if boards == [] then []
    else
      var rest := Matching(boards[1..], query);
      assert forall b :: b in boards <==> b == boards[0] || b in boards[1..];
      if NameMatches(boards[0], query) then [boards[0]] + rest else rest
  }

  /** Matching a list made of two parts matches each part on its own and
      keeps the two results in order: with `MatchingOne`, this says the
      matches are the matching boards of the list, each where it stood,
      none merged and none added. */
  lemma {:induction false} MatchingAppend(a: seq<seq<Prop>>, b: seq<seq<Prop>>, query: string)
    requires AllNamed(a) && AllNamed(b)
    ensures AllNamed(a + b)
    ensures Matching(a + b, query) == Matching(a, query) + Matching(b, query)
  {
    if a == [] {
      assert a + b == b;
    } else {
      assert (a + b)[1..] == a[1..] + b;
      MatchingAppend(a[1..], b, query);
    }
  }

  /** A single board is kept exactly when it matches. */
  lemma MatchingOne(board: seq<Prop>, query: string)
    requires Get(board, "name").Str?
    ensures AllNamed([board])
    ensures Matching([board], query) == if NameMatches(board, query) then [board] else []
  {
    assert [board][1..] == [];
  }

  /** The name test ignores the case of the name searched for. */
  lemma {:induction false} MatchingIgnoresCase(boards: seq<seq<Prop>>, query: string)
    requires AllNamed(boards)
    ensures Matching(boards, query) == Matching(boards, Lower(query))
  {
    LowerIdempotent(query);
    if boards != [] {
      MatchingIgnoresCase(boards[1..], query);
    }
  }

  /** An empty name matches every board. */
  lemma {:induction false} EmptyNameMatchesAll(boards: seq<seq<Prop>>)
    requires AllNamed(boards)
    ensures Matching(boards, "") == boards
  {
    if boards != [] {
      var name := Lower(Get(boards[0], "name").s);
      assert OccursAt(name, Lower(""), 0);
      EmptyNameMatchesAll(boards[1..]);
    }
  }

  /** `boards.find(b => b.board_id === id)`: the position of the first board
      with that id, if any. */
  function FindBoard(boards: seq<seq<Prop>>, id: int): (r: Option<nat>)
    ensures r.Some? ==> r.value < |boards| && Get(boards[r.value], "board_id") == Num(id)
    ensures r.Some? ==> forall j :: 0 <= j < r.value ==> Get(boards[j], "board_id") != Num(id)
    ensures r.None? ==> forall j :: 0 <= j < |boards| ==> Get(boards[j], "board_id") != Num(id)
  {
    if boards == [] then None
    else if Get(boards[0], "board_id") == Num(id) then Some(0)
    else
      match FindBoard(boards[1..], id)
      case None => None
      case Some(i) => Some(i + 1)
  }

  /** `getBoardWithStructure`: the board with its structure added, or, when
      the structure cannot be fetched, the board alone with a message
      naming the structure's error. It never answers with an error. */
  function WithStructure(board: seq<Prop>, structure: Result<Value>, message: string, stringify: Value -> string): (r: ToolResponse)
    ensures r.isError.None?
    ensures structure.Ok? ==> r == CreateSuccessResponse(Obj(Spread(board, [Prop("structure", structure.value)])), Some(message), stringify)
    ensures structure.Throw? ==> r == CreateSuccessResponse(Obj(board),
      Some("Board found but structure unavailable. Structure error: " + ErrorMessage(structure.error)), stringify)
  {
    match structure
    case Ok(s) => CreateSuccessResponse(Obj(Spread(board, [Prop("structure", s)])), Some(message), stringify)
    case Throw(e) =>
      CreateSuccessResponse(Obj(board), Some("Board found but structure unavailable. Structure error: " + ErrorMessage(e)), stringify)
  }

  /** The properties a spread copies out of a value. */
  function Own(v: Value): seq<Prop>
  {
    if v.Obj? then v.props else []
  }

  /** `searchBoardById`: the board and its structure are fetched together;
      if either fails, the board is looked up in the board list instead.
      A failing list call is not caught here. */
  function SearchById(id: int, workspaceId: Option<int>, replies: Replies, stringify: Value -> string): (r: Result<Searched>)
    ensures r.Ok? ==> |r.value.fetches| >= 2 && r.value.fetches[..2] == [FetchBoard(id), FetchStructure(Num(id))]
    ensures r.Throw? <==> (replies.board.Throw? || replies.structure.Throw?) && replies.boards.Throw?
  {
    var direct := [FetchBoard(id), FetchStructure(Num(id))];
    if replies.board.Ok? && replies.structure.Ok? then
      Ok(Searched(CreateSuccessResponse(Obj(Spread(Own(replies.board.value), [Prop("structure", replies.structure.value)])),
                                        Some("Board found directly:"), stringify), direct))
    else
      match replies.boards
      case Throw(e) => Throw(e)
      case Ok(boards) =>
        var found := FindInList(id, boards, replies.foundStructure, stringify);
        Ok(Searched(found.response, direct + [FetchBoards(WorkspaceFilter(workspaceId))] + found.fetches))
  }

  /** `searchBoardByIdFallback` once the list is in: the board with that id
      shown with its structure, or an error listing every board. */
  function FindInList(id: int, boards: seq<seq<Prop>>, structure: Result<Value>, stringify: Value -> string): (r: Searched)
    ensures FindBoard(boards, id).Some? ==>
      && r.fetches == [FetchStructure(Num(id))]
      && r.response == WithStructure(boards[FindBoard(boards, id).value], structure, "Board found via list search:", stringify)
    ensures FindBoard(boards, id).None? ==>
      && r.fetches == []
      && r.response == CreateErrorResponse(
           Error("Board with ID " + IntToString(id) + " not found. Available boards:\n" + stringify(Arr(FormatBoardsList(boards)))),
           "searching for board")
  {
    match FindBoard(boards, id)
    case None =>
      Searched(CreateErrorResponse(
        Error("Board with ID " + IntToString(id) + " not found. Available boards:\n" + stringify(Arr(FormatBoardsList(boards)))),
        "searching for board"), [])
    case Some(i) =>
      Searched(WithStructure(boards[i], structure, "Board found via list search:", stringify), [FetchStructure(Get(boards[i], "board_id"))])
  }

  /** `searchBoardByName`: a failing list call is not caught here. */
  function SearchByName(name: string, workspaceId: Option<int>, replies: Replies, stringify: Value -> string): (r: Result<Searched>)
    requires replies.boards.Ok? ==> AllNamed(replies.boards.value)
    ensures r.Throw? <==> replies.boards.Throw?
    ensures r.Ok? ==> |r.value.fetches| >= 1 && r.value.fetches[0] == FetchBoards(WorkspaceFilter(workspaceId))
  {
    match replies.boards
    case Throw(e) => Throw(e)
    case Ok(boards) =>
      var found := MatchInList(name, boards, replies.foundStructure, stringify);
      Ok(Searched(found.response, [FetchBoards(WorkspaceFilter(workspaceId))] + found.fetches))
  }

  /** The name search once the list is in: no match is an error listing
      every board, one match is shown with its structure (when it has an
      id), several matches are listed. */
  function MatchInList(name: string, boards: seq<seq<Prop>>, structure: Result<Value>, stringify: Value -> string): (r: Searched)
    requires AllNamed(boards)
    ensures r.response.isError.None? <==> |Matching(boards, name)| > 1 || (|Matching(boards, name)| == 1 && Truthy(Get(Matching(boards, name)[0], "board_id")))
    ensures r.fetches != [] <==> |Matching(boards, name)| == 1 && Truthy(Get(Matching(boards, name)[0], "board_id"))
    ensures Matching(boards, name) == [] ==>
      r == Searched(CreateErrorResponse(
             Error("No boards found matching name \"" + name + "\". Available boards:\n" + stringify(Arr(FormatBoardsList(boards)))),
             "searching for board by name"), [])
    ensures |Matching(boards, name)| == 1 && !Truthy(Get(Matching(boards, name)[0], "board_id")) ==>
      r == Searched(CreateErrorResponse(Error("Board missing board_id"), "board validation"), [])
  {
    var found := Matching(boards, name);
    if |found| == 0 then
      Searched(CreateErrorResponse(
        Error("No boards found matching name \"" + name + "\". Available boards:\n" + stringify(Arr(FormatBoardsList(boards)))),
        "searching for board by name"), [])
    else if |found| == 1 then
      if !Truthy(Get(found[0], "board_id")) then
        Searched(CreateErrorResponse(Error("Board missing board_id"), "board validation"), [])
      else
        Searched(WithStructure(found[0], structure, "Board found by name:", stringify), [FetchStructure(Get(found[0], "board_id"))])
    else
      Searched(CreateSuccessResponse(Arr(FormatBoardsList(found)), Some("Multiple boards found matching \"" + name + "\":"), stringify), [])
  }

  /** `getAllBoards`: every board of the workspace (or of all workspaces),
      summarised. A failing list call is not caught here. */
  function AllBoards(workspaceId: Option<int>, replies: Replies, stringify: Value -> string): (r: Result<Searched>)
    ensures r.Throw? <==> replies.boards.Throw?
    ensures r.Ok? ==> r.value.fetches == [FetchBoards(WorkspaceFilter(workspaceId))] && r.value.response.isError.None?
    ensures r.Ok? ==>
      r.value.response == CreateSuccessResponse(Arr(FormatBoardsList(replies.boards.value)), Some("All available boards:"), stringify)
  {
    match replies.boards
    case Throw(e) => Throw(e)
    case Ok(boards) =>
      Ok(Searched(CreateSuccessResponse(Arr(FormatBoardsList(boards)), Some("All available boards:"), stringify),
                  [FetchBoards(WorkspaceFilter(workspaceId))]))
  }

  /** The fetches made before a failure that escapes: a failing list call
      ends the search after the calls it made. */
  function Attempted(boardId: Option<int>, workspaceId: Option<int>): seq<Fetch>
  {
    if Truthy(OptNum(boardId)) then [FetchBoard(boardId.value), FetchStructure(Num(boardId.value)), FetchBoards(WorkspaceFilter(workspaceId))]
    else [FetchBoards(WorkspaceFilter(workspaceId))]
  }

  /** The `search_board` handler: by id when a non-zero id is given, else by
      name when a non-empty name is given, else every board. A failing list
      call becomes an error response naming the search. */
  function SearchBoard(boardId: Option<int>, boardName: Option<string>, workspaceId: Option<int>,
                       replies: Replies, stringify: Value -> string): (r: Searched)
    requires replies.boards.Ok? ==> AllNamed(replies.boards.value)
    ensures |r.response.content| == 1 && r.fetches != []
    ensures r.fetches[0].FetchBoard? <==> Truthy(OptNum(boardId))
    ensures r.fetches[0].FetchBoard? ==> r.fetches[0].id == boardId.value
    ensures replies.boards.Throw? && (!Truthy(OptNum(boardId)) || replies.board.Throw? || replies.structure.Throw?) ==>
      r == Searched(CreateErrorResponse(replies.boards.error, "searching for board"), Attempted(boardId, workspaceId))
  {
    Caught(Dispatch(boardId, boardName, workspaceId, replies, stringify), Attempted(boardId, workspaceId))
  }

  /** Which search runs: by id when a non-zero id is given, else by name
      when a non-empty name is given, else every board. */
  function Dispatch(boardId: Option<int>, boardName: Option<string>, workspaceId: Option<int>,
                    replies: Replies, stringify: Value -> string): Result<Searched>
    requires replies.boards.Ok? ==> AllNamed(replies.boards.value)
  {
    if Truthy(OptNum(boardId)) then SearchById(boardId.value, workspaceId, replies, stringify)
    else if Truthy(OptStr(boardName)) then SearchByName(boardName.value, workspaceId, replies, stringify)
    else AllBoards(workspaceId, replies, stringify)
  }

  /** The handler's catch: an escaping failure becomes an error response. */
  function Caught(outcome: Result<Searched>, attempted: seq<Fetch>): Searched
  {
    match outcome
    case Ok(searched) => searched
    case Throw(e) => Searched(CreateErrorResponse(e, "searching for board"), attempted)
  }

  /** When the board and its structure are both fetched, no list is asked
      for and the answer is the board with its structure. */
  lemma DirectHitSkipsList(id: int, workspaceId: Option<int>, replies: Replies, stringify: Value -> string)
    requires id != 0 && replies.board.Ok? && replies.structure.Ok?
    requires replies.boards.Ok? ==> AllNamed(replies.boards.value)
    ensures var r := SearchBoard(Some(id), None, workspaceId, replies, stringify);
      && r.fetches == [FetchBoard(id), FetchStructure(Num(id))]
      && r.response.isError.None?
      && r.response.content[0].text == "Board found directly:\n" +
           stringify(Obj(Spread(Own(replies.board.value), [Prop("structure", replies.structure.value)])))
  {
    var data := Obj(Spread(Own(replies.board.value), [Prop("structure", replies.structure.value)]));
    var found := Searched(CreateSuccessResponse(data, Some("Board found directly:"), stringify), [FetchBoard(id), FetchStructure(Num(id))]);
    assert SearchById(id, workspaceId, replies, stringify) == Ok(found);
    assert Truthy(OptNum(Some(id)));
    assert Dispatch(Some(id), None, workspaceId, replies, stringify) == Ok(found);
  }

  /** When the direct lookup fails and the list has the board, the structure
      is fetched again for that same id, and the search succeeds. */
  lemma FallbackRefetchesSameBoard(id: int, workspaceId: Option<int>, replies: Replies, stringify: Value -> string)
    requires id != 0 && (replies.board.Throw? || replies.structure.Throw?)
    requires replies.boards.Ok? && AllNamed(replies.boards.value)
    requires exists j :: 0 <= j < |replies.boards.value| && Get(replies.boards.value[j], "board_id") == Num(id)
    ensures var r := SearchBoard(Some(id), None, workspaceId, replies, stringify);
      && r.fetches == [FetchBoard(id), FetchStructure(Num(id)), FetchBoards(WorkspaceFilter(workspaceId)), FetchStructure(Num(id))]
      && r.response.isError.None?
  {
    var boards := replies.boards.value;
    var found := FindInList(id, boards, replies.foundStructure, stringify);
    ListedBoardIsFound(id, boards, replies.foundStructure, stringify);
    var direct := [FetchBoard(id), FetchStructure(Num(id))];
    var listed := FetchBoards(WorkspaceFilter(workspaceId));
    assert direct + [listed] + found.fetches == [FetchBoard(id), FetchStructure(Num(id)), listed, FetchStructure(Num(id))];
    assert SearchById(id, workspaceId, replies, stringify) == Ok(Searched(found.response, direct + [listed] + found.fetches));
    assert Truthy(OptNum(Some(id)));
    assert Dispatch(Some(id), None, workspaceId, replies, stringify) == SearchById(id, workspaceId, replies, stringify);
  }

  /** A listed board is found, its structure fetched, and the search succeeds. */
  lemma ListedBoardIsFound(id: int, boards: seq<seq<Prop>>, structure: Result<Value>, stringify: Value -> string)
    requires exists j :: 0 <= j < |boards| && Get(boards[j], "board_id") == Num(id)
    ensures var r := FindInList(id, boards, structure, stringify);
      r.fetches == [FetchStructure(Num(id))] && r.response.isError.None?
  {
    var j :| 0 <= j < |boards| && Get(boards[j], "board_id") == Num(id);
    assert FindBoard(boards, id).Some?;
  }
  /** When neither lookup finds the id, the error lists every board. */
  lemma MissingIdListsBoards(id: int, workspaceId: Option<int>, replies: Replies, stringify: Value -> string)
    requires id != 0 && (replies.board.Throw? || replies.structure.Throw?)
    requires replies.boards.Ok? && AllNamed(replies.boards.value)
    requires forall j :: 0 <= j < |replies.boards.value| ==> Get(replies.boards.value[j], "board_id") != Num(id)
    ensures var r := SearchBoard(Some(id), None, workspaceId, replies, stringify);
      && r.fetches == [FetchBoard(id), FetchStructure(Num(id)), FetchBoards(WorkspaceFilter(workspaceId))]
      && r.response == CreateErrorResponse(Error("Board with ID " + IntToString(id) + " not found. Available boards:\n" +
           stringify(Arr(FormatBoardsList(replies.boards.value)))), "searching for board")
  {
    assert FindBoard(replies.boards.value, id).None?;
  }

  /** An empty name is no name: the search lists every board. */
  lemma EmptyNameListsAll(workspaceId: Option<int>, replies: Replies, stringify: Value -> string)
    requires replies.boards.Ok? ==> AllNamed(replies.boards.value)
    ensures SearchBoard(None, Some(""), workspaceId, replies, stringify) == SearchBoard(None, None, workspaceId, replies, stringify)
    ensures replies.boards.Ok? ==>
      SearchBoard(None, Some(""), workspaceId, replies, stringify)
        == Searched(CreateSuccessResponse(Arr(FormatBoardsList(replies.boards.value)), Some("All available boards:"), stringify),
                    [FetchBoards(WorkspaceFilter(workspaceId))])
  {
    assert !Truthy(OptStr(Some(""))) && !Truthy(OptStr(None)) && !Truthy(OptNum(None));
    assert Dispatch(None, Some(""), workspaceId, replies, stringify) == Dispatch(None, None, workspaceId, replies, stringify);
    if replies.boards.Ok? {
      NoCriteriaListsAll(None, Some(""), workspaceId, replies, stringify);
    }
  }

  /** With no non-zero id and no non-empty name, every board of the list is
      shown, summarised, after "All available boards:", and the list is
      the only fetch. */
  lemma NoCriteriaListsAll(boardId: Option<int>, boardName: Option<string>, workspaceId: Option<int>,
                           replies: Replies, stringify: Value -> string)
    requires !Truthy(OptNum(boardId)) && !Truthy(OptStr(boardName))
    requires replies.boards.Ok? && AllNamed(replies.boards.value)
    ensures SearchBoard(boardId, boardName, workspaceId, replies, stringify)
      == Searched(CreateSuccessResponse(Arr(FormatBoardsList(replies.boards.value)), Some("All available boards:"), stringify),
                  [FetchBoards(WorkspaceFilter(workspaceId))])
  {
    assert Dispatch(boardId, boardName, workspaceId, replies, stringify) == AllBoards(workspaceId, replies, stringify);
  }

  /** A name matched by exactly one board with an id shows that board with
      its structure, fetched by that id. */
  lemma SingleMatchShowsBoard(name: string, workspaceId: Option<int>, replies: Replies, stringify: Value -> string)
    requires name != "" && replies.boards.Ok? && AllNamed(replies.boards.value)
    requires |Matching(replies.boards.value, name)| == 1
    requires Truthy(Get(Matching(replies.boards.value, name)[0], "board_id"))
    ensures var board := Matching(replies.boards.value, name)[0];
      var r := SearchBoard(None, Some(name), workspaceId, replies, stringify);
      && r.fetches == [FetchBoards(WorkspaceFilter(workspaceId)), FetchStructure(Get(board, "board_id"))]
      && r.response == WithStructure(board, replies.foundStructure, "Board found by name:", stringify)
  {
    NameSearchAfterList(name, workspaceId, replies, stringify);
    SingleMatchInList(name, replies.boards.value, replies.foundStructure, stringify);
  }

  /** A name search that gets its list answers as the list stage does,
      after the one list call. */
  lemma NameSearchAfterList(name: string, workspaceId: Option<int>, replies: Replies, stringify: Value -> string)
    requires name != "" && replies.boards.Ok? && AllNamed(replies.boards.value)
    ensures var found := MatchInList(name, replies.boards.value, replies.foundStructure, stringify);
      SearchBoard(None, Some(name), workspaceId, replies, stringify) ==
        Searched(found.response, [FetchBoards(WorkspaceFilter(workspaceId))] + found.fetches)
  {
  }

  lemma SingleMatchInList(name: string, boards: seq<seq<Prop>>, structure: Result<Value>, stringify: Value -> string)
    requires AllNamed(boards) && |Matching(boards, name)| == 1 && Truthy(Get(Matching(boards, name)[0], "board_id"))
    ensures var board := Matching(boards, name)[0];
      MatchInList(name, boards, structure, stringify) ==
        Searched(WithStructure(board, structure, "Board found by name:", stringify), [FetchStructure(Get(board, "board_id"))])
  {
  }

  /** A name matched by several boards lists them without fetching any
      structure. */
  lemma SeveralMatchesListed(name: string, workspaceId: Option<int>, replies: Replies, stringify: Value -> string)
    requires name != "" && replies.boards.Ok? && AllNamed(replies.boards.value)
    requires |Matching(replies.boards.value, name)| > 1
    ensures var r := SearchBoard(None, Some(name), workspaceId, replies, stringify);
      && r.fetches == [FetchBoards(WorkspaceFilter(workspaceId))]
      && r.response == CreateSuccessResponse(Arr(FormatBoardsList(Matching(replies.boards.value, name))),
           Some("Multiple boards found matching \"" + name + "\":"), stringify)
  {
    NameSearchAfterList(name, workspaceId, replies, stringify);
    var found := MatchInList(name, replies.boards.value, replies.foundStructure, stringify);
    assert found.fetches == [];
    assert [FetchBoards(WorkspaceFilter(workspaceId))] + found.fetches == [FetchBoards(WorkspaceFilter(workspaceId))];
  }
}
