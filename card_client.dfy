/** The card module of the API client: each method as the call it makes.
    Ids are numbers; params records are objects, given by their properties
    in order; filters are absent or an object. */
module CardClient {
  import opened JsValue
  import opened Text
  import opened Requests

  datatype CardMethod =
    | GetCards(board: Value, filters: Option<seq<Prop>>)
    | GetCard(cardId: int)
    | CreateCard(params: seq<Prop>)
    | UpdateCard(params: seq<Prop>)
    | MoveCard(cardId: int, columnId: int, laneId: Option<int>, position: Option<int>)
    | DeleteCard(cardId: int)
    | GetCardComments(cardId: int)
    | GetCardComment(cardId: int, commentId: int)
    | GetCardCustomFields(cardId: int)
    | GetCardTypes
    | GetCardHistory(cardId: int, outcomeId: int)
    | GetCardOutcomes(cardId: int)
    | GetCardLinkedCards(cardId: int)
    | GetCardSubtasks(cardId: int)
    | GetCardSubtask(cardId: int, subtaskId: int)
    | CreateCardSubtask(card: Value, params: seq<Prop>)
    | GetCardParents(cardId: int)
    | GetCardParent(cardId: int, parentCardId: int)
    | AddCardParent(cardId: int, parentCardId: int)
    | RemoveCardParent(cardId: int, parentCardId: int)
    | GetCardParentGraph(cardId: int)
    | GetCardChildren(cardId: int)
    | BlockCard(cardId: int, reason: string)
    | UnblockCard(cardId: int)
    | CreateCardComment(cardId: int, params: seq<Prop>)
    | UpdateCardComment(cardId: int, commentId: int, params: seq<Prop>)
    | DeleteCardComment(cardId: int, commentId: int)
    | CreateTag(params: seq<Prop>)
    | AddTagToCard(cardId: int, tagId: int)
    | RemoveTagFromCard(cardId: int, tagId: int)
    | AddStickerToCard(cardId: int, stickerId: int)
    | RemoveStickerFromCard(cardId: int, stickerCardId: int)

  /** The methods whose path names one card by a numeric id. (`updateCard`
      and `createCardSubtask` take the card id from a params record, so it
      is displayed from whatever value that record holds.) */
  predicate CardScoped(m: CardMethod)
  {
    !(m.GetCards? || m.CreateCard? || m.UpdateCard? || m.CreateCardSubtask? || m.GetCardTypes? || m.CreateTag?)
  }

  /** The methods that change something on the server. */
  predicate Mutates(m: CardMethod)
  {
    match m
    case GetCards(_, _) | GetCard(_) | GetCardComments(_) | GetCardComment(_, _) | GetCardCustomFields(_)
      | GetCardTypes | GetCardHistory(_, _) | GetCardOutcomes(_) | GetCardLinkedCards(_)
      | GetCardSubtasks(_) | GetCardSubtask(_, _) | GetCardParents(_) | GetCardParent(_, _)
      | GetCardParentGraph(_) | GetCardChildren(_) => false
    case _ => true
  }

  /** The methods declared to resolve to nothing. */
  predicate Void(m: CardMethod)
  {
    match m
    case DeleteCard(_) | RemoveCardParent(_, _) | BlockCard(_, _) | UnblockCard(_) | DeleteCardComment(_, _)
      | AddTagToCard(_, _) | RemoveTagFromCard(_, _) | RemoveStickerFromCard(_, _) => true
    case _ => false
  }

  /** The query parameters of `getCards`: the board id, then every filter. */
  function CardsQuery(board: Value, filters: Option<seq<Prop>>): seq<Prop>
  {
    Spread([Prop("board_id", board)], if filters.Some? then filters.value else [])
  }

  /** The path each read other than `getCards` requests. */
  function ReadPath(m: CardMethod): (path: seq<string>)
    requires !Mutates(m) && !m.GetCards?
    ensures CardScoped(m) ==> |path| >= 2 && path[0] == "cards" && path[1] == Id(m.cardId)
  {
    match m
    case GetCard(cardId) => ["cards", Id(cardId)]
    case GetCardComments(cardId) => ["cards", Id(cardId), "comments"]
    case GetCardComment(cardId, commentId) => ["cards", Id(cardId), "comments", Id(commentId)]
    case GetCardCustomFields(cardId) => ["cards", Id(cardId), "customFields"]
    case GetCardTypes => ["cardTypes"]
    case GetCardHistory(cardId, outcomeId) => ["cards", Id(cardId), "outcomes", Id(outcomeId), "history"]
    case GetCardOutcomes(cardId) => ["cards", Id(cardId), "outcomes"]
    case GetCardLinkedCards(cardId) => ["cards", Id(cardId), "linkedCards"]
    case GetCardSubtasks(cardId) => ["cards", Id(cardId), "subtasks"]
    case GetCardSubtask(cardId, subtaskId) => ["cards", Id(cardId), "subtasks", Id(subtaskId)]
    case GetCardParents(cardId) => ["cards", Id(cardId), "parents"]
    case GetCardParent(cardId, parentCardId) => ["cards", Id(cardId), "parents", Id(parentCardId)]
    case GetCardParentGraph(cardId) => ["cards", Id(cardId), "parentGraph"]
    case GetCardChildren(cardId) => ["cards", Id(cardId), "children"]
  }

  /** The call each method that changes something and resolves to the
      envelope's data makes: guarded, never GET, never with query
      parameters. */
  function DataCall(m: CardMethod): (c: Call)
    requires Mutates(m) && !Void(m)
    ensures c.guard.Some? && c.request.verb != GET && c.request.verb != DELETE && c.request.query.None?
    ensures c.returnsData
    ensures CardScoped(m) ==> |c.request.path| >= 2 && c.request.path[0] == "cards" && c.request.path[1] == Id(m.cardId)
  {
    match m
    case CreateCard(params) => Guarded("create card", POST, ["cards"], Some(Obj(params)), true)
    case UpdateCard(params) =>
      Guarded("update card", PATCH, ["cards", Display(Get(params, "card_id"))], Some(Obj(Omit(params, "card_id"))), true)
    case MoveCard(cardId, columnId, laneId, position) =>
      Guarded("move card", PATCH, ["cards", Id(cardId)],
        Some(Obj([Prop("column_id", Num(columnId)), Prop("lane_id", OptNum(laneId)), Prop("position", OptNum(position))])), true)
    case CreateCardSubtask(card, params) =>
      Guarded("create subtask", POST, ["cards", Display(card), "subtasks"], Some(Obj(params)), true)
    case AddCardParent(cardId, parentCardId) =>
      Guarded("add card parent", PUT, ["cards", Id(cardId), "parents", Id(parentCardId)], None, true)
    case CreateCardComment(cardId, params) =>
      Guarded("create comment", POST, ["cards", Id(cardId), "comments"], Some(Obj(params)), true)
    case UpdateCardComment(cardId, commentId, params) =>
      Guarded("update comment", PATCH, ["cards", Id(cardId), "comments", Id(commentId)], Some(Obj(params)), true)
    case CreateTag(params) => Guarded("create tag", POST, ["tags"], Some(Obj(params)), true)
    case AddStickerToCard(cardId, stickerId) =>
      Guarded("add sticker to card", POST, ["cards", Id(cardId), "stickers"], Some(Obj([Prop("sticker_id", Num(stickerId))])), true)
  }

  /** The call each method that resolves to nothing makes: guarded, and a
      deletion unless it is `blockCard` or `addTagToCard`; deletions send
      no body. */
  function VoidCall(m: CardMethod): (c: Call)
    requires Void(m)
    ensures c.guard.Some? && c.request.query.None? && !c.returnsData
    ensures c.request.verb == DELETE <==> !m.BlockCard? && !m.AddTagToCard?
    ensures c.request.verb == DELETE ==> c.request.body.None?
    ensures CardScoped(m) && |c.request.path| >= 2 && c.request.path[0] == "cards" && c.request.path[1] == Id(m.cardId)
  {
    match m
    case DeleteCard(cardId) => Guarded("delete card", DELETE, ["cards", Id(cardId)], None, false)
    case RemoveCardParent(cardId, parentCardId) =>
      Guarded("remove card parent", DELETE, ["cards", Id(cardId), "parents", Id(parentCardId)], None, false)
    case BlockCard(cardId, reason) =>
      Guarded("block card", PUT, ["cards", Id(cardId), "blockReason"], Some(Arr([Obj([Prop("comment", Str(reason))])])), false)
    case UnblockCard(cardId) => Guarded("unblock card", DELETE, ["cards", Id(cardId), "blockReason"], None, false)
    case DeleteCardComment(cardId, commentId) =>
      Guarded("delete comment", DELETE, ["cards", Id(cardId), "comments", Id(commentId)], None, false)
    case AddTagToCard(cardId, tagId) => Guarded("add tag to card", PUT, ["cards", Id(cardId), "tags", Id(tagId)], None, false)
    case RemoveTagFromCard(cardId, tagId) =>
      Guarded("remove tag from card", DELETE, ["cards", Id(cardId), "tags", Id(tagId)], None, false)
    case RemoveStickerFromCard(cardId, stickerCardId) =>
      Guarded("remove sticker from card", DELETE, ["cards", Id(cardId), "stickers", Id(stickerCardId)], None, false)
  }

  /** The call each method makes. Methods that change something call the
      guard first and use a verb other than GET; only `getCards` sends query
      parameters; reads and deletions send no body; every method returns
      the envelope's data except the deletions, `blockCard` and
      `addTagToCard`. */
  function Describe(m: CardMethod): (c: Call)
    ensures GuardedIffMutating(c)
    ensures c.guard.Some? <==> Mutates(m)
    ensures c.request.query.Some? <==> m.GetCards?
    ensures c.request.verb == GET || c.request.verb == DELETE ==> c.request.body.None?
    ensures c.returnsData <==> c.request.verb != DELETE && !m.BlockCard? && !m.AddTagToCard?
    ensures c.returnsData <==> !Void(m)
    ensures CardScoped(m) ==> |c.request.path| >= 2 && c.request.path[0] == "cards" && c.request.path[1] == Id(m.cardId)
  {
    if m.GetCards? then
      Call(None, Request(GET, ["cards"], Some(CardsQuery(m.board, m.filters)), None), true)
    else if Void(m) then
      VoidCall(m)
    else if Mutates(m) then
      DataCall(m)
    else
      Read(ReadPath(m))
  }

  /** The card a card-scoped request is about can be read back from the
      second segment of its path. */
  lemma CardIdReadsBack(m: CardMethod)
    requires CardScoped(m)
    ensures Describe(m).request.path[0] == "cards" && ParseInt(Describe(m).request.path[1]) == Some(m.cardId)
  {
    IdReadsBack(m.cardId);
  }

  /** `getCards` queries the given board: every filter other than `board_id`
      is passed unchanged, and the board id is the one given unless a filter
      of that name overrides it. */
  lemma GetCardsQuery(board: Value, filters: seq<Prop>, k: string)
    requires UniqueKeys(filters)
    ensures var q := Describe(GetCards(board, Some(filters))).request.query.value;
      && UniqueKeys(q)
      && (k != "board_id" ==> Has(q, k) == Has(filters, k) && Get(q, k) == Get(filters, k))
      && Has(q, "board_id")
      && Get(q, "board_id") == if Has(filters, "board_id") then Get(filters, "board_id") else board
  {
    SpreadGet([Prop("board_id", board)], filters, k);
    SpreadGet([Prop("board_id", board)], filters, "board_id");
  }

  /** Without filters `getCards` sends the board id alone. */
  lemma GetCardsWithoutFilters(board: Value)
    ensures Describe(GetCards(board, None)).request.query == Some([Prop("board_id", board)])
  {
  }

  /** `updateCard` targets the card named by `card_id` and sends every other
      field of the params, with its value, and never `card_id` itself. */
  lemma UpdateCardRequest(params: seq<Prop>, k: string)
    requires UniqueKeys(params)
    ensures var r := Describe(UpdateCard(params)).request;
      && r.verb == PATCH && r.path == ["cards", Display(Get(params, "card_id"))]
      && r.body.Some? && r.body.value.Obj?
      && !Has(r.body.value.props, "card_id")
      && (k != "card_id" ==> Has(r.body.value.props, k) == Has(params, k) && Get(r.body.value.props, k) == Get(params, k))
  {
    if k != "card_id" {
      OmitGet(params, "card_id", k);
    }
  }

  /** `moveCard` sends exactly the column, the lane and the position, in
      that order; a lane or position not given is sent as undefined. */
  lemma MoveCardBody(cardId: int, columnId: int, laneId: Option<int>, position: Option<int>)
    ensures var b := Describe(MoveCard(cardId, columnId, laneId, position)).request.body.value;
      && b.Obj? && |b.props| == 3
      && b.props[0].key == "column_id" && b.props[1].key == "lane_id" && b.props[2].key == "position"
      && Get(b.props, "column_id") == Num(columnId)
      && (laneId.Some? ==> Get(b.props, "lane_id") == Num(laneId.value))
      && (position.Some? ==> Get(b.props, "position") == Num(position.value))
  {
  }

  /** `blockCard` puts a one-element list holding the reason as a comment. */
  lemma BlockCardBody(cardId: int, reason: string)
    ensures var r := Describe(BlockCard(cardId, reason)).request;
      && r.verb == PUT && r.path == ["cards", Id(cardId), "blockReason"]
      && r.body == Some(Arr([Obj([Prop("comment", Str(reason))])]))
  {
    var c := Describe(BlockCard(cardId, reason));
    assert c == Guarded("block card", PUT, ["cards", Id(cardId), "blockReason"], Some(Arr([Obj([Prop("comment", Str(reason))])])), false);
  }

  /** Comments are addressed under their card, for reading one, updating
      and deleting alike. */
  lemma CommentPath(m: CardMethod)
    requires m.GetCardComment? || m.UpdateCardComment? || m.DeleteCardComment?
    ensures Describe(m).request.path == ["cards", Id(m.cardId), "comments", Id(m.commentId)]
  {
    var path := ["cards", Id(m.cardId), "comments", Id(m.commentId)];
    match m
    case GetCardComment(_, _) =>
      assert Describe(m) == Read(path);
    case UpdateCardComment(_, _, params) =>
      assert Describe(m) == Guarded("update comment", PATCH, path, Some(Obj(params)), true);
    case DeleteCardComment(_, _) =>
      assert Describe(m) == Guarded("delete comment", DELETE, path, None, false);
  }

  /** Adding a sticker names the sticker in the body. */
  lemma AddStickerRequest(cardId: int, stickerId: int)
    ensures var add := Describe(AddStickerToCard(cardId, stickerId)).request;
      add.verb == POST && add.path == ["cards", Id(cardId), "stickers"] && add.body == Some(Obj([Prop("sticker_id", Num(stickerId))]))
  {
    assert Describe(AddStickerToCard(cardId, stickerId)) ==
      Guarded("add sticker to card", POST, ["cards", Id(cardId), "stickers"], Some(Obj([Prop("sticker_id", Num(stickerId))])), true);
  }

  /** Removing a sticker names the card-sticker association, not the
      sticker, in the path and sends no body. */
  lemma RemoveStickerRequest(cardId: int, stickerCardId: int)
    ensures var remove := Describe(RemoveStickerFromCard(cardId, stickerCardId)).request;
      remove.verb == DELETE && remove.path == ["cards", Id(cardId), "stickers", Id(stickerCardId)] && remove.body.None?
  {
    assert Describe(RemoveStickerFromCard(cardId, stickerCardId)) ==
      Guarded("remove sticker from card", DELETE, ["cards", Id(cardId), "stickers", Id(stickerCardId)], None, false);
  }
}
