/** The card tools: which of them the server registers, the client call
    each one makes with its arguments, and how each turns the call's
    outcome into a response. Tool arguments arrive already validated by
    their schemas, so a numeric id is an `int` here. */
module CardTools {
  import opened JsValue
  import opened Text
  import opened Responses
  import opened Registry
  import Requests
  import C = CardClient

  datatype CardTool =
    // read tools
    | ListCards(params: seq<Prop>)
    | GetCard(cardId: int)
    | GetCardSize(cardId: int)
    | GetCardComments(cardId: int)
    | GetCardComment(cardId: int, commentId: int)
    | GetCardCustomFields(cardId: int)
    | GetCardTypes
    | GetCardHistory(cardId: int, outcomeId: int)
    | GetCardOutcomes(cardId: int)
    | GetCardLinkedCards(cardId: int)
    | GetCardSubtasks(cardId: int)
    | GetCardSubtask(cardId: int, subtaskId: int)
    | GetCardParents(cardId: int)
    | GetCardParent(cardId: int, parentCardId: int)
    | GetCardParentGraph(cardId: int)
    | GetCardChildren(cardId: int)
    // write tools
    | CreateCard(params: seq<Prop>)
    | MoveCard(cardId: int, columnId: int, laneId: Option<int>, position: Option<int>)
    | UpdateCard(params: seq<Prop>)
    | SetCardSize(cardId: int, size: int)
    | DeleteCard(cardId: int)
    | CreateCardSubtask(params: seq<Prop>)
    | AddCardParent(cardId: int, parentCardId: int)
    | RemoveCardParent(cardId: int, parentCardId: int)
    | BlockCard(cardId: int, reason: string)
    | UnblockCard(cardId: int)
    | CreateComment(cardId: int, text: Value)
    | UpdateComment(cardId: int, commentId: int, text: Value)
    | DeleteComment(cardId: int, commentId: int)
    | CreateTag(tagLabel: Value, color: Value)
    | AddTagToCard(cardId: int, tagId: int)
    | RemoveTagFromCard(cardId: int, tagId: int)
    | AddStickerToCard(cardId: int, stickerId: int)
    | RemoveStickerFromCard(cardId: int, stickerCardId: int)
    | AddPredecessor(cardId: int, predecessorCardId: int, linkedCardPosition: Option<int>, cardPosition: Option<int>)
    | RemovePredecessor(cardId: int, predecessorCardId: int)

  /** The tools that change something. */
  predicate IsWrite(t: CardTool)
  {
    match t
    case ListCards(_) | GetCard(_) | GetCardSize(_) | GetCardComments(_) | GetCardComment(_, _)
      | GetCardCustomFields(_) | GetCardTypes | GetCardHistory(_, _) | GetCardOutcomes(_)
      | GetCardLinkedCards(_) | GetCardSubtasks(_) | GetCardSubtask(_, _) | GetCardParents(_)
      | GetCardParent(_, _) | GetCardParentGraph(_) | GetCardChildren(_) => false
    case _ => true
  }

  const ReadTools: seq<string> := [
    "list_cards", "get_card", "get_card_size", "get_card_comments", "get_card_comment",
    "get_card_custom_fields", "get_card_types", "get_card_history", "get_card_outcomes",
    "get_card_linked_cards", "get_card_subtasks", "get_card_subtask", "get_card_parents",
    "get_card_parent", "get_card_parent_graph", "get_card_children"]

  const WriteTools: seq<string> := [
    "create_card", "move_card", "update_card", "set_card_size", "delete_card",
    "create_card_subtask", "add_card_parent", "remove_card_parent", "block_card", "unblock_card",
    "create_comment", "update_comment", "delete_comment", "create_tag", "add_tag_to_card",
    "remove_tag_from_card", "add_sticker_to_card", "remove_sticker_from_card",
    "add_predecessor", "remove_predecessor"]

  /** `registerTools`: the sixteen read tools always, then the twenty write
      tools unless the server is read-only, each in its registration order. */
  method RegisterTools(server: ToolServer, readOnlyMode: bool)
    modifies server
    ensures server.tools == old(server.tools) + ReadTools + (if readOnlyMode then [] else WriteTools)
  {
    server.RegisterEach(ReadTools);
    if !readOnlyMode {
      server.RegisterEach(WriteTools);
    }
  }

  /** A fresh server registers every read tool and, exactly when it is
      writable, every write tool: 16 tools read-only, 36 otherwise. */
  method RegisteredTools(readOnlyMode: bool) returns (names: seq<string>)
    ensures |names| == if readOnlyMode then 16 else 36
    ensures forall n :: n in ReadTools ==> n in names
    ensures forall n :: n in WriteTools ==> (n in names <==> !readOnlyMode)
  {
    var server := new ToolServer();
    RegisterTools(server, readOnlyMode);
    names := server.tools;
    ToolListsDisjoint();
  }

  /** No name is both a read tool and a write tool: every read tool's name
      starts with `g` or `l`, and no write tool's does. */
  lemma ToolListsDisjoint()
    ensures forall n :: n in WriteTools ==> n !in ReadTools
  {
    ReadToolInitials();
    WriteToolInitials();
  }

  lemma ReadToolInitials()
    ensures forall n :: n in ReadTools ==> |n| > 0 && (n[0] == 'g' || n[0] == 'l')
  {
  }

  lemma WriteToolInitials()
    ensures forall n :: n in WriteTools ==> |n| > 0 && n[0] != 'g' && n[0] != 'l'
  {
  }

  /** The label each handler's error response names. */
  function Operation(t: CardTool): string
  {
    match t
    case ListCards(_) => "fetching cards"
    case GetCard(_) => "fetching card"
    case GetCardSize(_) => "fetching card size"
    case GetCardComments(_) => "getting card comments"
    case GetCardComment(_, _) => "getting card comment"
    case GetCardCustomFields(_) => "getting card custom fields"
    case GetCardTypes => "getting card types"
    case GetCardHistory(_, _) => "getting card history"
    case GetCardOutcomes(_) => "getting card outcomes"
    case GetCardLinkedCards(_) => "getting card linked cards"
    case GetCardSubtasks(_) => "getting card subtasks"
    case GetCardSubtask(_, _) => "getting card subtask"
    case GetCardParents(_) => "getting card parents"
    case GetCardParent(_, _) => "getting card parent"
    case GetCardParentGraph(_) => "getting card parent graph"
    case GetCardChildren(_) => "getting card children"
    case CreateCard(_) => "creating card"
    case MoveCard(_, _, _, _) => "moving card"
    case UpdateCard(_) => "updating card"
    case SetCardSize(_, _) => "setting card size"
    case DeleteCard(_) => "deleting card"
    case CreateCardSubtask(_) => "creating card subtask"
    case AddCardParent(_, _) => "adding card parent"
    case RemoveCardParent(_, _) => "removing card parent"
    case BlockCard(_, _) => "blocking card"
    case UnblockCard(_) => "unblocking card"
    case CreateComment(_, _) => "creating comment"
    case UpdateComment(_, _, _) => "updating comment"
    case DeleteComment(_, _) => "deleting comment"
    case CreateTag(_, _) => "creating tag"
    case AddTagToCard(_, _) => "adding tag to card"
    case RemoveTagFromCard(_, _) => "removing tag from card"
    case AddStickerToCard(_, _) => "adding sticker to card"
    case RemoveStickerFromCard(_, _) => "removing sticker from card"
    case AddPredecessor(_, _, _, _) => "adding predecessor"
    case RemovePredecessor(_, _) => "removing predecessor"
  }

  /** The card-module method each tool calls. The two predecessor tools
      call client methods that are not part of this model. */
  function ClientCall(t: CardTool): (m: Option<C.CardMethod>)
    ensures m.None? <==> t.AddPredecessor? || t.RemovePredecessor?
  {
    match t
    case ListCards(params) => Some(C.GetCards(Get(params, "board_id"), Some(Omit(params, "board_id"))))
    case GetCard(id) => Some(C.GetCard(id))
    case GetCardSize(id) => Some(C.GetCard(id))
    case GetCardComments(id) => Some(C.GetCardComments(id))
    case GetCardComment(id, commentId) => Some(C.GetCardComment(id, commentId))
    case GetCardCustomFields(id) => Some(C.GetCardCustomFields(id))
    case GetCardTypes => Some(C.GetCardTypes)
    case GetCardHistory(id, outcomeId) => Some(C.GetCardHistory(id, outcomeId))
    case GetCardOutcomes(id) => Some(C.GetCardOutcomes(id))
    case GetCardLinkedCards(id) => Some(C.GetCardLinkedCards(id))
    case GetCardSubtasks(id) => Some(C.GetCardSubtasks(id))
    case GetCardSubtask(id, subtaskId) => Some(C.GetCardSubtask(id, subtaskId))
    case GetCardParents(id) => Some(C.GetCardParents(id))
    case GetCardParent(id, parentId) => Some(C.GetCardParent(id, parentId))
    case GetCardParentGraph(id) => Some(C.GetCardParentGraph(id))
    case GetCardChildren(id) => Some(C.GetCardChildren(id))
    case CreateCard(params) => Some(C.CreateCard(params))
    case MoveCard(id, columnId, laneId, position) => Some(C.MoveCard(id, columnId, laneId, position))
    case UpdateCard(params) => Some(C.UpdateCard(params))
    case SetCardSize(id, size) => Some(C.UpdateCard([Prop("card_id", Num(id)), Prop("size", Num(size))]))
    case DeleteCard(id) => Some(C.DeleteCard(id))
    case CreateCardSubtask(params) => Some(C.CreateCardSubtask(Get(params, "card_id"), Omit(params, "card_id")))
    case AddCardParent(id, parentId) => Some(C.AddCardParent(id, parentId))
    case RemoveCardParent(id, parentId) => Some(C.RemoveCardParent(id, parentId))
    case BlockCard(id, reason) => Some(C.BlockCard(id, reason))
    case UnblockCard(id) => Some(C.UnblockCard(id))
    case CreateComment(id, text) => Some(C.CreateCardComment(id, [Prop("text", text)]))
    case UpdateComment(id, commentId, text) => Some(C.UpdateCardComment(id, commentId, [Prop("text", text)]))
    case DeleteComment(id, commentId) => Some(C.DeleteCardComment(id, commentId))
    case CreateTag(tagLabel, color) => Some(C.CreateTag([Prop("label", tagLabel), Prop("color", color)]))
    case AddTagToCard(id, tagId) => Some(C.AddTagToCard(id, tagId))
    case RemoveTagFromCard(id, tagId) => Some(C.RemoveTagFromCard(id, tagId))
    case AddStickerToCard(id, stickerId) => Some(C.AddStickerToCard(id, stickerId))
    case RemoveStickerFromCard(id, stickerCardId) => Some(C.RemoveStickerFromCard(id, stickerCardId))
    case AddPredecessor(_, _, _, _) => None
    case RemovePredecessor(_, _) => None
  }

  /** The two gates agree: a tool registered only on a writable server calls
      a client method that consults the read-only guard, and a tool
      registered always calls one that does not. */
  lemma WriteToolsAreGuarded(t: CardTool)
    requires ClientCall(t).Some?
    ensures IsWrite(t) <==> C.Describe(ClientCall(t).value).guard.Some?
  {
    if IsWrite(t) {
      WriteToolsMutate(t);
    } else {
      ReadToolsRead(t);
    }
  }

  /** Every read tool calls a client method that changes nothing. */
  lemma ReadToolsRead(t: CardTool)
    requires !IsWrite(t)
    ensures ClientCall(t).Some? && !C.Mutates(ClientCall(t).value)
  {
    match t
    case ListCards(_) | GetCard(_) | GetCardSize(_) | GetCardComments(_) | GetCardComment(_, _)
      | GetCardCustomFields(_) | GetCardTypes | GetCardHistory(_, _) | GetCardOutcomes(_)
      | GetCardLinkedCards(_) | GetCardSubtasks(_) | GetCardSubtask(_, _) | GetCardParents(_)
      | GetCardParent(_, _) | GetCardParentGraph(_) | GetCardChildren(_) =>
  }

  /** Every write tool that calls the client calls a method that changes
      something. */
  lemma WriteToolsMutate(t: CardTool)
    requires IsWrite(t) && ClientCall(t).Some?
    ensures C.Mutates(ClientCall(t).value)
  {
    match t
    case CreateCard(_) | MoveCard(_, _, _, _) | UpdateCard(_) | SetCardSize(_, _) | DeleteCard(_)
      | CreateCardSubtask(_) | AddCardParent(_, _) | RemoveCardParent(_, _) | BlockCard(_, _)
      | UnblockCard(_) | CreateComment(_, _) | UpdateComment(_, _, _) | DeleteComment(_, _)
      | CreateTag(_, _) | AddTagToCard(_, _) | RemoveTagFromCard(_, _) | AddStickerToCard(_, _)
      | RemoveStickerFromCard(_, _) =>
  }

  /** The mutations whose client method returns nothing, and which answer
      with their own arguments instead. */
  predicate Echoes(t: CardTool)
  {
    || t.RemoveCardParent? || t.BlockCard? || t.UnblockCard? || t.DeleteComment? || t.AddTagToCard?
    || t.RemoveTagFromCard? || t.RemoveStickerFromCard? || t.DeleteCard? || t.AddPredecessor? || t.RemovePredecessor?
  }

  /** How a void mutation reports success: it echoes its arguments, the
      card first and then the other id (or the reason) it was given. */
  function Echo(t: CardTool): (r: Option<Value>)
    ensures r.Some? <==> Echoes(t)
    ensures r.Some? ==> IsWrite(t) && r.value.Obj? && 1 <= |r.value.props| <= 2
    ensures Echoes(t) ==> r.Some? && r.value.props[0] == Prop("card_id", Num(t.cardId))
    ensures r.Some? && |r.value.props| == 1 <==> t.UnblockCard? || t.DeleteCard?
  {
    match t
    case RemoveCardParent(id, parentId) => Some(Obj([Prop("card_id", Num(id)), Prop("parent_card_id", Num(parentId))]))
    case BlockCard(id, reason) => Some(Obj([Prop("card_id", Num(id)), Prop("reason", Str(reason))]))
    case UnblockCard(id) => Some(Obj([Prop("card_id", Num(id))]))
    case DeleteComment(id, commentId) => Some(Obj([Prop("card_id", Num(id)), Prop("comment_id", Num(commentId))]))
    case AddTagToCard(id, tagId) => Some(Obj([Prop("card_id", Num(id)), Prop("tag_id", Num(tagId))]))
    case RemoveTagFromCard(id, tagId) => Some(Obj([Prop("card_id", Num(id)), Prop("tag_id", Num(tagId))]))
    case RemoveStickerFromCard(id, stickerCardId) => Some(Obj([Prop("card_id", Num(id)), Prop("sticker_card_id", Num(stickerCardId))]))
    case DeleteCard(id) => Some(Obj([Prop("card_id", Num(id))]))
    case AddPredecessor(id, predecessorId, _, _) => Some(Obj([Prop("card_id", Num(id)), Prop("predecessor_card_id", Num(predecessorId))]))
    case RemovePredecessor(id, predecessorId) => Some(Obj([Prop("card_id", Num(id)), Prop("predecessor_card_id", Num(predecessorId))]))
    case _ => None
  }

  /** An echo holds the card under `card_id` and the tool's other
      argument under its own name, each with the value given, and no
      name twice. */
  lemma EchoHoldsArgs(t: CardTool)
    requires Echoes(t)
    ensures var props := Echo(t).value.props;
      && UniqueKeys(props)
      && Get(props, "card_id") == Num(t.cardId)
      && (t.RemoveCardParent? ==> Get(props, "parent_card_id") == Num(t.parentCardId))
      && (t.BlockCard? ==> Get(props, "reason") == Str(t.reason))
      && (t.DeleteComment? ==> Get(props, "comment_id") == Num(t.commentId))
      && (t.AddTagToCard? || t.RemoveTagFromCard? ==> Get(props, "tag_id") == Num(t.tagId))
      && (t.RemoveStickerFromCard? ==> Get(props, "sticker_card_id") == Num(t.stickerCardId))
      && (t.AddPredecessor? || t.RemovePredecessor? ==> Get(props, "predecessor_card_id") == Num(t.predecessorCardId))
  {
    var props := Echo(t).value.props;
    if |props| == 1 {
      assert Get(props, "card_id") == Num(t.cardId);
    } else {
      var second := props[1];
      assert |second.key| != |"card_id"|;
      TwoProps(props[0], second);
    }
  }

  /** An object of two differently named properties reads each back. */
  lemma TwoProps(first: Prop, second: Prop)
    requires first.key != second.key
    ensures UniqueKeys([first, second])
    ensures Get([first, second], first.key) == first.val && Get([first, second], second.key) == second.val
  {
    assert [first, second][1..] == [second];
    assert IndexOf([second], second.key) == 0;
  }

  /** The key under which a counting tool reports its list. */
  function CountKey(t: CardTool): Option<string>
  {
    match t
    case GetCardComments(_) => Some("comments")
    case GetCardCustomFields(_) => Some("customFields")
    case GetCardTypes => Some("cardTypes")
    case GetCardHistory(_, _) => Some("history")
    case GetCardOutcomes(_) => Some("outcomes")
    case GetCardLinkedCards(_) => Some("linkedCards")
    case GetCardSubtasks(_) => Some("subtasks")
    case GetCardParents(_) => Some("parents")
    case GetCardParentGraph(_) => Some("parentGraph")
    case GetCardChildren(_) => Some("children")
    case _ => None
  }

  /** How a counting tool shapes the list it fetched. */
  function CountShape(key: string): Value -> Result<Value>
  {
    (items: Value) => Counted(key, items)
  }

  /** A counting tool's response to what its call returned: the list
      with its length, or an error when there is nothing to count. */
  function CountResponse(key: string, v: Value, operation: string, stringify: Value -> string): (r: ToolResponse)
    ensures v.Arr? ==> r == CreateSuccessResponse(Obj([Prop(key, v), Prop("count", Num(|v.items|))]), None, stringify)
    ensures v == Null || v == Undefined ==> r.isError == Some(true)
  {
    Respond(Ok(v), CountShape(key), None, operation, stringify)
  }

  /** The message that precedes a success payload. */
  function SuccessMessage(t: CardTool): Option<string>
  {
    match t
    case CreateCard(_) => Some("Card created successfully:")
    case MoveCard(_, _, _, _) => Some("Card moved successfully:")
    case UpdateCard(_) => Some("Card updated successfully:")
    case DeleteCard(_) => Some("Card deleted successfully:")
    case CreateCardSubtask(_) => Some("Subtask created successfully:")
    case AddCardParent(_, _) => Some("Card parent added successfully:")
    case RemoveCardParent(_, _) => Some("Card parent removed successfully:")
    case BlockCard(_, _) => Some("Card blocked successfully:")
    case UnblockCard(_) => Some("Card unblocked successfully:")
    case CreateComment(_, _) => Some("Comment created successfully:")
    case UpdateComment(_, _, _) => Some("Comment updated successfully:")
    case DeleteComment(_, _) => Some("Comment deleted successfully:")
    case CreateTag(_, _) => Some("Tag created successfully:")
    case AddTagToCard(_, _) => Some("Tag added to card successfully:")
    case RemoveTagFromCard(_, _) => Some("Tag removed from card successfully:")
    case AddStickerToCard(_, _) => Some("Sticker added to card successfully:")
    case RemoveStickerFromCard(_, _) => Some("Sticker removed from card successfully:")
    case AddPredecessor(_, _, _, _) => Some("Predecessor added successfully:")
    case RemovePredecessor(_, _) => Some("Predecessor removed successfully:")
    case _ => None
  }

  /** `card.size || 0`: a missing or falsy size is reported as 0. */
  function SizeOrZero(size: Value): (r: Value)
    ensures Truthy(size) ==> r == size
    ensures !Truthy(size) ==> r == Num(0)
  {
    if Truthy(size) then size else Num(0)
  }

  /** The text of `get_card_size` for a fetched card. */
  function SizeReport(cardId: int, card: Value): (r: Result<string>)
    ensures r.Throw? <==> card == Null || card == Undefined
    ensures card.Obj? ==> r == Ok("Card \"" + Display(Get(card.props, "title")) + "\" (ID: " + Id(cardId) + ") has size: "
                                  + Display(SizeOrZero(Get(card.props, "size"))) + " points")
  {
    match Member(card, "size")
    case Throw(e) => Throw(e)
    case Ok(size) =>
      var title := Member(card, "title").value;
      Ok("Card \"" + Display(title) + "\" (ID: " + Id(cardId) + ") has size: " + Display(SizeOrZero(size)) + " points")
  }

  /** The text of `set_card_size` for the updated card. */
  function SizeUpdate(cardId: int, size: int, card: Value): (r: Result<string>)
    ensures r.Throw? <==> card == Null || card == Undefined
    ensures card.Obj? ==> r == Ok("Card \"" + Display(Get(card.props, "title")) + "\" (ID: " + Id(cardId) + ") size updated to: "
                                  + Id(size) + " points")
  {
    match Member(card, "title")
    case Throw(e) => Throw(e)
    case Ok(title) =>
      Ok("Card \"" + Display(title) + "\" (ID: " + Id(cardId) + ") size updated to: " + Id(size) + " points")
  }

  /** A card without a size, or with a size of 0, is reported as having
      0 points. */
  lemma SizelessCardReadsZero(cardId: int, props: seq<Prop>, stringify: Value -> string)
    requires !Truthy(Get(props, "size"))
    ensures Handle(GetCardSize(cardId), Ok(Obj(props)), stringify)
      == TextResponse("Card \"" + Display(Get(props, "title")) + "\" (ID: " + Id(cardId) + ") has size: 0 points")
  {
    assert Display(Num(0)) == "0" by { assert NatToString(0) == "0"; }
    ZeroPointsText("Card \"" + Display(Get(props, "title")) + "\" (ID: " + Id(cardId));
  }

  /** Writing the digit 0 between the two literal parts of the size text. */
  lemma ZeroPointsText(head: string)
    ensures head + ") has size: " + "0" + " points" == head + ") has size: 0 points"
  {
    assert ") has size: " + "0" + " points" == ") has size: 0 points";
    assert head + ") has size: " + "0" + " points" == head + (") has size: " + "0" + " points");
  }

  /** `set_card_size` reports the size it was asked to set: the text does
      not depend on the size the updated card carries. */
  lemma SizeUpdateReportsRequested(cardId: int, size: int, props: seq<Prop>, newSize: Value)
    ensures SizeUpdate(cardId, size, Obj(Put(props, "size", newSize))) == SizeUpdate(cardId, size, Obj(props))
  {
    assert "title" != "size";
  }

  function Id(n: int): string
  {
    Requests.Id(n)
  }

  /** The tools that answer with the value their client call returned,
      preceded by their success message, if any. */
  predicate ReturnsData(t: CardTool)
  {
    !t.GetCardSize? && !t.SetCardSize? && CountKey(t).None? && !Echoes(t)
  }

  /** A size tool's text as a plain response, or its error naming the
      operation. */
  function TextOrError(text: Result<string>, operation: string): (r: ToolResponse)
    ensures text.Ok? ==> r == TextResponse(text.value)
    ensures text.Throw? ==> r == CreateErrorResponse(text.error, operation)
  {
    match text
    case Ok(t) => TextResponse(t)
    case Throw(e) => CreateErrorResponse(e, operation)
  }

  /** A handler's response, given what its client call returned or threw.
      Every thrown error, whether from the call or from reading the
      returned value, becomes an error response naming the tool's
      operation; nothing propagates. */
  function Handle(t: CardTool, result: Result<Value>, stringify: Value -> string): (r: ToolResponse)
    ensures |r.content| == 1
    ensures result.Throw? ==> r == CreateErrorResponse(result.error, Operation(t))
    ensures r.isError.Some? ==> r.isError == Some(true) && StartsWith(r.content[0].text, "Error " + Operation(t) + ": ")
    ensures result.Ok? && ReturnsData(t) ==> r == CreateSuccessResponse(result.value, SuccessMessage(t), stringify)
    ensures result.Ok? && Echoes(t) ==> r == CreateSuccessResponse(Echo(t).value, SuccessMessage(t), stringify)
    ensures result.Ok? && t.GetCardSize? ==> r == TextOrError(SizeReport(t.cardId, result.value), Operation(t))
    ensures result.Ok? && t.SetCardSize? ==> r == TextOrError(SizeUpdate(t.cardId, t.size, result.value), Operation(t))
  {
    match result
    case Throw(e) => CreateErrorResponse(e, Operation(t))
    case Ok(v) =>
      if t.GetCardSize? then TextOrError(SizeReport(t.cardId, v), Operation(t))
      else if t.SetCardSize? then TextOrError(SizeUpdate(t.cardId, t.size, v), Operation(t))
      else if CountKey(t).Some? then
        CountResponse(CountKey(t).value, v, Operation(t), stringify)
      else if Echo(t).Some? then
        CreateSuccessResponse(Echo(t).value, SuccessMessage(t), stringify)
      else
        CreateSuccessResponse(v, SuccessMessage(t), stringify)
  }

  /** The optional positions `add_predecessor` passes on, gathered one
      `if` at a time: each is present exactly when it was given, with the
      value given, and nothing else is. */
  method PredecessorParams(linkedCardPosition: Option<int>, cardPosition: Option<int>) returns (params: seq<Prop>)
    ensures UniqueKeys(params) && |params| <= 2
    ensures Has(params, "linked_card_position") <==> linkedCardPosition.Some?
    ensures Has(params, "card_position") <==> cardPosition.Some?
    ensures linkedCardPosition.Some? ==> Get(params, "linked_card_position") == Num(linkedCardPosition.value)
    ensures cardPosition.Some? ==> Get(params, "card_position") == Num(cardPosition.value)
    ensures forall k :: Has(params, k) ==> k == "linked_card_position" || k == "card_position"
  {
    params := [];
    if linkedCardPosition.Some? {
      params := Put(params, "linked_card_position", Num(linkedCardPosition.value));
    }
    if cardPosition.Some? {
      params := Put(params, "card_position", Num(cardPosition.value));
    }
  }

  /** `list_cards` queries with exactly the tool's arguments: the board id
      it was given and every other argument, with its value. */
  lemma ListCardsQuery(params: seq<Prop>, k: string)
    requires UniqueKeys(params) && Has(params, "board_id")
    ensures var q := C.Describe(ClientCall(ListCards(params)).value).request.query;
      && q.Some? && UniqueKeys(q.value)
      && Has(q.value, k) == Has(params, k) && Get(q.value, k) == Get(params, k)
  {
    var filters := Omit(params, "board_id");
    C.GetCardsQuery(Get(params, "board_id"), filters, k);
    if k != "board_id" {
      OmitGet(params, "board_id", k);
    }
  }

  /** `set_card_size` patches the card it names with a body holding the
      size and nothing else. */
  lemma SetCardSizeRequest(cardId: int, size: int)
    ensures var r := C.Describe(ClientCall(SetCardSize(cardId, size)).value).request;
      && r.verb == Requests.PATCH
      && |r.path| == 2 && r.path[0] == "cards" && ParseInt(r.path[1]) == Some(cardId)
      && r.body == Some(Obj([Prop("size", Num(size))]))
  {
    var params := [Prop("card_id", Num(cardId)), Prop("size", Num(size))];
    var m := C.UpdateCard(params);
    assert ClientCall(SetCardSize(cardId, size)) == Some(m);
    assert Get(params, "card_id") == Num(cardId);
    assert C.Describe(m).request == Requests.Request(Requests.PATCH, ["cards", Display(Num(cardId))], None, Some(Obj(Omit(params, "card_id"))));
    assert Omit(params, "card_id") == [Prop("size", Num(size))] by {
      var rest := [Prop("size", Num(size))];
      assert params[1..] == rest;
      assert rest[1..] == [];
      assert "size" != "card_id" by { assert "size"[0] != "card_id"[0]; }
      assert Omit(rest, "card_id") == rest;
    }
    DisplayNumber(cardId);
  }

  /** The tools that report a list report it with its length, and succeed
      exactly when the call returned something that has a length. */
  lemma CountMatchesLength(t: CardTool, items: seq<Value>, stringify: Value -> string)
    requires CountKey(t).Some?
    ensures var r := Handle(t, Ok(Arr(items)), stringify);
      && r.isError.None?
      && r == CreateSuccessResponse(Obj([Prop(CountKey(t).value, Arr(items)), Prop("count", Num(|items|))]), None, stringify)
    ensures Handle(t, Ok(Null), stringify).isError == Some(true)
    ensures Handle(t, Ok(Undefined), stringify).isError == Some(true)
  {
    HandleCounts(t, Arr(items), stringify);
    HandleCounts(t, Null, stringify);
    HandleCounts(t, Undefined, stringify);
  }

  /** A counting tool's handler answers with its count response. */
  lemma HandleCounts(t: CardTool, v: Value, stringify: Value -> string)
    requires CountKey(t).Some?
    ensures Handle(t, Ok(v), stringify) == CountResponse(CountKey(t).value, v, Operation(t), stringify)
  {
    assert !t.GetCardSize? && !t.SetCardSize?;
  }

  /** A void mutation's success response echoes its arguments, so it does
      not depend on what the client call resolved to. */
  lemma VoidResultIgnored(t: CardTool, v1: Value, v2: Value, stringify: Value -> string)
    requires Echo(t).Some?
    ensures Handle(t, Ok(v1), stringify) == Handle(t, Ok(v2), stringify)
    ensures Handle(t, Ok(v1), stringify).isError.None?
  {
    assert !t.GetCardSize? && !t.SetCardSize? && CountKey(t).None?;
  }

  /** The tools that echo their arguments are exactly those whose client
      method returns nothing. */
  lemma EchoIffVoid(t: CardTool)
    requires ClientCall(t).Some?
    ensures Echo(t).Some? <==> !C.Describe(ClientCall(t).value).returnsData
  {
    if Echo(t).Some? {
      EchoingToolsCallVoid(t);
    } else {
      SilentToolsCallData(t);
    }
  }

  /** A tool that echoes its arguments and calls the client calls a
      method that returns nothing. */
  lemma EchoingToolsCallVoid(t: CardTool)
    requires Echo(t).Some? && ClientCall(t).Some?
    ensures C.Void(ClientCall(t).value)
  {
    match t
    case RemoveCardParent(_, _) | BlockCard(_, _) | UnblockCard(_) | DeleteComment(_, _) | AddTagToCard(_, _)
      | RemoveTagFromCard(_, _) | RemoveStickerFromCard(_, _) | DeleteCard(_) =>
  }

  /** A tool that does not echo calls a method that returns data. */
  lemma SilentToolsCallData(t: CardTool)
    requires Echo(t).None? && ClientCall(t).Some?
    ensures !C.Void(ClientCall(t).value)
  {
  }
}
