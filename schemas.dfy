/** The input schemas of the tools: each is a list of fields, and parsing
    an argument object either rejects it or returns the schema's fields
    that were given, in the schema's order, dropping every other property.
    Whether a string is a well-formed email address is a parameter. */
module Schemas {
  import opened JsValue

  /** What a field accepts. */
  datatype Kind =
    | NumberKind
    | StringKind
    | EmailKind
    | RangeKind(lo: int, hi: int)
    | NumberArrayKind
    | EnumArrayKind(options: seq<string>)

  datatype Field = Field(name: string, kind: Kind, optional: bool)

  /** A given value is of the field's kind. */
  predicate Conforms(v: Value, kind: Kind, isEmail: string -> bool)
  {
    match kind
    case NumberKind => v.Num?
    case StringKind => v.Str?
    case EmailKind => v.Str? && isEmail(v.s)
    case RangeKind(lo, hi) => v.Num? && lo <= v.n <= hi
    case NumberArrayKind => v.Arr? && forall i :: 0 <= i < |v.items| ==> v.items[i].Num?
    case EnumArrayKind(options) => v.Arr? && forall i :: 0 <= i < |v.items| ==> v.items[i].Str? && v.items[i].s in options
  }

  /** A field is satisfied by an argument object when it is missing and
      optional, or present and of its kind. */
  predicate Satisfied(f: Field, input: seq<Prop>, isEmail: string -> bool)
  {
    var v := Get(input, f.name);
    if v == Undefined then f.optional else Conforms(v, f.kind, isEmail)
  }

  /** Each field of the schema with the value the argument object gives it. */
  function Picked(schema: seq<Field>, input: seq<Prop>): (r: seq<Prop>)
    ensures |r| == |schema|
    ensures forall i :: 0 <= i < |schema| ==> r[i] == Prop(schema[i].name, Get(input, schema[i].name))
  {
    if schema == [] then [] else Picked(schema[..|schema| - 1], input) + [Prop(schema[|schema| - 1].name, Get(input, schema[|schema| - 1].name))]
  }

  /** `schema.parse(input)`, field by field: rejected as soon as one field
      is not satisfied; otherwise the given fields, in the schema's order. */
  function Parse(schema: seq<Field>, input: seq<Prop>, isEmail: string -> bool): (r: Option<seq<Prop>>)
    ensures r.Some? <==> forall i :: 0 <= i < |schema| ==> Satisfied(schema[i], input, isEmail)
    ensures r.Some? ==> r.value == Defined(Picked(schema, input))
  {
    if schema == [] then Some([])
    else
      var f := schema[|schema| - 1];
      var init := schema[..|schema| - 1];
      var before := Parse(init, input, isEmail);
      var v := Get(input, f.name);
      var picked := Picked(schema, input);
      assert picked[..|picked| - 1] == Picked(init, input) && picked[|picked| - 1] == Prop(f.name, v);
      if before.None? || !Satisfied(f, input, isEmail) then None
      else if v == Undefined then before
      else Some(before.value + [Prop(f.name, v)])
  }

  /** No two fields of the schema share a name. */
  predicate DistinctNames(schema: seq<Field>)
  {
    forall i, j :: 0 <= i < j < |schema| ==> schema[i].name != schema[j].name
  }

  /** An accepted object comes back with every field of the schema it
      gave, unchanged, and with nothing that is not a field of the schema. */
  lemma ParseKeepsFields(schema: seq<Field>, input: seq<Prop>, isEmail: string -> bool, k: string)
    requires DistinctNames(schema)
    requires Parse(schema, input, isEmail).Some?
    ensures var out := Parse(schema, input, isEmail).value;
      && UniqueKeys(out)
      && Get(out, k) == (if exists i :: 0 <= i < |schema| && schema[i].name == k then Get(input, k) else Undefined)
  {
    var picked := Picked(schema, input);
    assert UniqueKeys(picked);
    DefinedGet(picked, k);
    if exists i :: 0 <= i < |schema| && schema[i].name == k {
      var i :| 0 <= i < |schema| && schema[i].name == k;
      assert picked[i].key == k;
      assert Has(picked, k);
      assert IndexOf(picked, k) == i;
    } else {
      assert forall i :: 0 <= i < |picked| ==> picked[i].key != k;
      assert !Has(picked, k);
    }
  }

  /** A schema whose fields are all optional accepts the empty object. */
  lemma AllOptionalAcceptsEmpty(schema: seq<Field>, isEmail: string -> bool)
    requires forall i :: 0 <= i < |schema| ==> schema[i].optional
    ensures Parse(schema, [], isEmail) == Some([])
  {
    var picked := Picked(schema, []);
    assert forall p :: p in picked ==> p.val == Undefined;
    DefinedEmpty(picked);
  }

  /** Leaving out every undefined field of a list of undefined fields leaves nothing. */
  lemma {:induction false} DefinedEmpty(fields: seq<Prop>)
    requires forall p :: p in fields ==> p.val == Undefined
    ensures Defined(fields) == []
  {
    if fields != [] {
      assert fields[|fields| - 1] in fields;
      DefinedEmpty(fields[..|fields| - 1]);
    }
  }

  /** A required field that is missing makes the object rejected. */
  lemma MissingRequiredRejected(schema: seq<Field>, input: seq<Prop>, isEmail: string -> bool, i: int)
    requires 0 <= i < |schema| && !schema[i].optional && !Has(input, schema[i].name)
    ensures Parse(schema, input, isEmail).None?
  {
    assert !Satisfied(schema[i], input, isEmail);
  }

  /** A field given with a value of the wrong kind makes the object
      rejected, whether the field is optional or not. */
  lemma IllTypedRejected(schema: seq<Field>, input: seq<Prop>, isEmail: string -> bool, i: int)
    requires 0 <= i < |schema| && Get(input, schema[i].name) != Undefined
    requires !Conforms(Get(input, schema[i].name), schema[i].kind, isEmail)
    ensures Parse(schema, input, isEmail).None?
  {
    assert !Satisfied(schema[i], input, isEmail);
  }

  // The user schemas.

  const ListUsersSchema: seq<Field> := []

  const GetUserSchema: seq<Field> := [Field("user_id", NumberKind, false)]

  const GetCurrentUserSchema: seq<Field> := []

  const InviteUserSchema: seq<Field> :=
    [Field("email", EmailKind, false), Field("do_not_send_confirmation_email", RangeKind(0, 1), true)]

  // The workspace schemas.

  const ListWorkspacesSchema: seq<Field> := []

  const GetWorkspaceSchema: seq<Field> := [Field("workspace_id", NumberKind, false)]

  const CreateWorkspaceSchema: seq<Field> := [Field("name", StringKind, false), Field("description", StringKind, true)]

  // The card and board schemas, with the fields their tests exercise.

  const ListCardsSchema: seq<Field> := [
    Field("board_id", NumberKind, false), Field("created_from_date", StringKind, true),
    Field("created_to_date", StringKind, true), Field("page", NumberKind, true), Field("per_page", NumberKind, true),
    Field("owner_user_ids", NumberArrayKind, true)]

  const GetCardSchema: seq<Field> := [Field("card_id", NumberKind, false)]

  const CreateCardSchema: seq<Field> := [
    Field("title", StringKind, false), Field("column_id", NumberKind, false), Field("description", StringKind, true),
    Field("owner_user_id", NumberKind, true), Field("size", NumberKind, true), Field("priority", NumberKind, true),
    Field("color", StringKind, true), Field("deadline", StringKind, true)]

  const MoveCardSchema: seq<Field> := [
    Field("card_id", NumberKind, false), Field("column_id", NumberKind, false),
    Field("lane_id", NumberKind, true), Field("position", NumberKind, true)]

  const ListBoardsSchema: seq<Field> := [
    Field("board_ids", NumberArrayKind, true), Field("expand", EnumArrayKind(["workflows", "settings", "structure"]), true),
    Field("is_archived", NumberKind, true)]

  const SearchBoardSchema: seq<Field> := [
    Field("board_id", NumberKind, true), Field("board_name", StringKind, true), Field("workspace_id", NumberKind, true)]

  const CreateBoardSchema: seq<Field> := [
    Field("name", StringKind, false), Field("description", StringKind, true), Field("workspace_id", NumberKind, true)]

  /** The schemas without parameters accept the empty object and drop
      whatever else they are given. */
  lemma EmptySchemasAcceptAnything(input: seq<Prop>, isEmail: string -> bool)
    ensures Parse(ListUsersSchema, input, isEmail) == Some([])
    ensures Parse(GetCurrentUserSchema, input, isEmail) == Some([])
    ensures Parse(ListWorkspacesSchema, input, isEmail) == Some([])
  {
  }

  /** `get_user` and `get_workspace` accept exactly an object whose id is a number. */
  lemma IdSchemas(input: seq<Prop>, isEmail: string -> bool)
    ensures Parse(GetUserSchema, input, isEmail).Some? <==> Get(input, "user_id").Num?
    ensures Parse(GetWorkspaceSchema, input, isEmail).Some? <==> Get(input, "workspace_id").Num?
    ensures Parse(GetCardSchema, input, isEmail).Some? <==> Get(input, "card_id").Num?
  {
    assert Satisfied(GetUserSchema[0], input, isEmail) <==> Get(input, "user_id").Num?;
  }

  /** An invitation is accepted exactly when its email is a well-formed
      email string and its confirmation flag, when given, is a number from
      0 to 1. */
  lemma InviteUserAccepts(input: seq<Prop>, isEmail: string -> bool)
    ensures Parse(InviteUserSchema, input, isEmail).Some? <==>
      && Get(input, "email").Str? && isEmail(Get(input, "email").s)
      && (var flag := Get(input, "do_not_send_confirmation_email");
          flag == Undefined || (flag.Num? && 0 <= flag.n <= 1))
  {
    assert Satisfied(InviteUserSchema[0], input, isEmail) <==> Get(input, "email").Str? && isEmail(Get(input, "email").s);
  }

  /** Creating a workspace needs a string name; a description, when
      given, must be a string too. */
  lemma CreateWorkspaceAccepts(input: seq<Prop>, isEmail: string -> bool)
    ensures Parse(CreateWorkspaceSchema, input, isEmail).Some? <==>
      Get(input, "name").Str? && (Get(input, "description") == Undefined || Get(input, "description").Str?)
  {
    assert Satisfied(CreateWorkspaceSchema[0], input, isEmail) <==> Get(input, "name").Str?;
  }

  /** Listing cards needs a numeric board id, creating a card a string
      title and a column id, moving a card a card id and a column id, and
      creating a board a string name. */
  lemma RequiredFields(input: seq<Prop>, isEmail: string -> bool)
    ensures Parse(ListCardsSchema, input, isEmail).Some? ==> Get(input, "board_id").Num?
    ensures Parse(CreateCardSchema, input, isEmail).Some? ==> Get(input, "title").Str? && Get(input, "column_id").Num?
    ensures Parse(MoveCardSchema, input, isEmail).Some? ==> Get(input, "card_id").Num? && Get(input, "column_id").Num?
    ensures Parse(CreateBoardSchema, input, isEmail).Some? ==> Get(input, "name").Str?
  {
    assert Parse(ListCardsSchema, input, isEmail).Some? ==> Satisfied(ListCardsSchema[0], input, isEmail);
    assert Parse(CreateCardSchema, input, isEmail).Some? ==>
      Satisfied(CreateCardSchema[0], input, isEmail) && Satisfied(CreateCardSchema[1], input, isEmail);
    assert Parse(MoveCardSchema, input, isEmail).Some? ==>
      Satisfied(MoveCardSchema[0], input, isEmail) && Satisfied(MoveCardSchema[1], input, isEmail);
    assert Parse(CreateBoardSchema, input, isEmail).Some? ==> Satisfied(CreateBoardSchema[0], input, isEmail);
  }

  /** An object made of values for the schema's own fields, in its order,
      each missing only where the field is optional and of the field's kind
      where given, is accepted and given back as it is. */
  lemma ParseOwnFields(schema: seq<Field>, fields: seq<Prop>, isEmail: string -> bool)
    requires |fields| == |schema| && DistinctNames(schema)
    requires forall i :: 0 <= i < |schema| ==> fields[i].key == schema[i].name
    requires forall i :: 0 <= i < |schema| ==>
      if fields[i].val == Undefined then schema[i].optional else Conforms(fields[i].val, schema[i].kind, isEmail)
    ensures Parse(schema, Defined(fields), isEmail) == Some(Defined(fields))
  {
    var input := Defined(fields);
    assert UniqueKeys(fields);
    forall i | 0 <= i < |schema|
      ensures Get(input, schema[i].name) == fields[i].val
    {
      DefinedGet(fields, schema[i].name);
      IndexOfDistinct(fields, i);
    }
    assert Picked(schema, input) == fields;
  }

  /** `search_board` accepts any combination of its three fields, none
      included, and passes on exactly the ones given. */
  lemma SearchBoardAcceptsAnySubset(boardId: Option<int>, boardName: Option<string>, workspaceId: Option<int>,
                                    isEmail: string -> bool)
    ensures var input := Defined([Prop("board_id", OptNum(boardId)), Prop("board_name", OptStr(boardName)),
                                  Prop("workspace_id", OptNum(workspaceId))]);
      Parse(SearchBoardSchema, input, isEmail) == Some(input)
  {
    var fields := [Prop("board_id", OptNum(boardId)), Prop("board_name", OptStr(boardName)),
                   Prop("workspace_id", OptNum(workspaceId))];
    ParseOwnFields(SearchBoardSchema, fields, isEmail);
  }

  /** `move_card` needs only its card and column; the lane and the
      position may be left out, and a position of 0 is accepted like any
      other number. */
  lemma MoveCardOptionalFields(cardId: int, columnId: int, laneId: Option<int>, position: Option<int>,
                               isEmail: string -> bool)
    ensures var input := Defined([Prop("card_id", Num(cardId)), Prop("column_id", Num(columnId)),
                                  Prop("lane_id", OptNum(laneId)), Prop("position", OptNum(position))]);
      Parse(MoveCardSchema, input, isEmail) == Some(input)
  {
    var fields := [Prop("card_id", Num(cardId)), Prop("column_id", Num(columnId)),
                   Prop("lane_id", OptNum(laneId)), Prop("position", OptNum(position))];
    ParseOwnFields(MoveCardSchema, fields, isEmail);
  }

  /** `expand` accepts only the listed options: a list of known options
      passes, an unknown option rejects the whole object. */
  lemma ExpandOptions(isEmail: string -> bool)
    ensures Parse(ListBoardsSchema, [Prop("expand", Arr([Str("workflows"), Str("settings")]))], isEmail).Some?
    ensures Parse(ListBoardsSchema, [Prop("expand", Arr([Str("invalid_value")]))], isEmail).None?
  {
    var bad := [Prop("expand", Arr([Str("invalid_value")]))];
    assert IndexOf(bad, "expand") == 0;
    assert "invalid_value" !in ["workflows", "settings", "structure"];
    var v := Get(bad, "expand");
    assert v.items[0] == Str("invalid_value");
    assert !Conforms(v, EnumArrayKind(["workflows", "settings", "structure"]), isEmail);
    assert !Satisfied(ListBoardsSchema[1], bad, isEmail);
  }
}
