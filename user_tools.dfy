/** The user tools: which of them the server registers, the parameters
    `invite_user` passes on, and how each handler turns its client call's
    outcome into a response. */
module UserTools {
  import opened JsValue
  import opened Text
  import opened Responses
  import opened Registry

  datatype UserTool =
    | ListUsers
    | GetUser(userId: int)
    | GetCurrentUser
    | InviteUser(email: string, doNotSendConfirmationEmail: Option<int>)

  /** Only inviting a user changes something. */
  predicate IsWrite(t: UserTool)
  {
    t.InviteUser?
  }

  const ReadTools: seq<string> := ["list_users", "get_user", "get_current_user"]

  const WriteTools: seq<string> := ["invite_user"]

  /** The name each tool is registered under. */
  function Name(t: UserTool): (n: string)
    ensures IsWrite(t) <==> n in WriteTools
    ensures !IsWrite(t) <==> n in ReadTools
  {
    match t
    case ListUsers => "list_users"
    case GetUser(_) => "get_user"
    case GetCurrentUser => "get_current_user"
    case InviteUser(_, _) => "invite_user"
  }

  /** `registerTools`: the three read tools always, then `invite_user`
      unless the server is read-only. */
  method RegisterTools(server: ToolServer, readOnlyMode: bool)
    modifies server
    ensures server.tools == old(server.tools) + ReadTools + (if readOnlyMode then [] else WriteTools)
  {
    server.RegisterEach(ReadTools);
    if !readOnlyMode {
      server.RegisterTool("invite_user");
    }
  }

  /** A fresh server offers every read tool, and offers `invite_user`
      exactly when it is writable. */
  method RegisteredTools(readOnlyMode: bool) returns (names: seq<string>)
    ensures |names| == if readOnlyMode then 3 else 4
    ensures forall t :: !IsWrite(t) ==> Name(t) in names
    ensures forall t :: IsWrite(t) ==> (Name(t) in names <==> !readOnlyMode)
  {
    var server := new ToolServer();
    RegisterTools(server, readOnlyMode);
    names := server.tools;
  }

  /** The candidate properties of an invitation, in the order the handler
      considers them. */
  function InviteFields(email: string, doNotSendConfirmationEmail: Option<int>): seq<Prop>
  {
    [Prop("email", Str(email)), Prop("do_not_send_confirmation_email", OptNum(doNotSendConfirmationEmail))]
  }

  /** The parameters `invite_user` passes on, gathered one `if` at a time:
      the given fields, in order. */
  method InviteParams(email: string, doNotSendConfirmationEmail: Option<int>) returns (params: seq<Prop>)
    ensures params == Defined(InviteFields(email, doNotSendConfirmationEmail))
  {
    var fields := InviteFields(email, doNotSendConfirmationEmail);
    params := Put([], "email", Str(email));
    assert params == Defined(fields[..1]) by {
      assert fields[..1][..0] == [];
    }
    if doNotSendConfirmationEmail.Some? {
      params := Put(params, "do_not_send_confirmation_email", Num(doNotSendConfirmationEmail.value));
    }
    DefinedExtend(fields, 1);
    assert fields[..2] == fields;
  }

  /** The invitation carries the email always, and the confirmation flag
      only when it was given, with the value given; nothing else, and no
      name twice. */
  lemma InviteParamsContents(email: string, doNotSendConfirmationEmail: Option<int>)
    ensures var params := Defined(InviteFields(email, doNotSendConfirmationEmail));
      && UniqueKeys(params)
      && Get(params, "email") == Str(email)
      && (Has(params, "do_not_send_confirmation_email") <==> doNotSendConfirmationEmail.Some?)
      && (doNotSendConfirmationEmail.Some? ==>
            Get(params, "do_not_send_confirmation_email") == Num(doNotSendConfirmationEmail.value))
      && (forall k :: Has(params, k) ==> k == "email" || k == "do_not_send_confirmation_email")
  {
    var fields := InviteFields(email, doNotSendConfirmationEmail);
    assert UniqueKeys(fields);
    forall k
      ensures Has(Defined(fields), k) <==> Has(fields, k) && Get(fields, k) != Undefined
      ensures Get(Defined(fields), k) == Get(fields, k)
    {
      DefinedGet(fields, k);
    }
  }

  /** The label each handler's error response names. */
  function Operation(t: UserTool): string
  {
    match t
    case ListUsers => "fetching users"
    case GetUser(_) => "fetching user"
    case GetCurrentUser => "fetching current user"
    case InviteUser(_, _) => "inviting user"
  }

  /** A handler's response, given what its client call returned or threw:
      the value returned, serialised, as a success, preceded by a message
      only for an invitation; anything thrown as an error naming the
      operation, never propagated. */
  function Handle(t: UserTool, result: Result<Value>, stringify: Value -> string): (r: ToolResponse)
    ensures |r.content| == 1 && r.content[0].kind == "text"
    ensures r.isError.None? <==> result.Ok?
    ensures result.Throw? ==> r == CreateErrorResponse(result.error, Operation(t))
    ensures result.Ok? && t.InviteUser? ==>
      r.content[0].text == "User invited successfully:\n" + stringify(result.value)
    ensures result.Ok? && !t.InviteUser? ==> r.content[0].text == stringify(result.value)
  {
    match result
    case Throw(e) => CreateErrorResponse(e, Operation(t))
    case Ok(v) =>
      CreateSuccessResponse(v, if t.InviteUser? then Some("User invited successfully:") else None, stringify)
  }

  /** A failed invitation reads "Error inviting user: " and the error's
      message, and a failed listing "Error fetching users: " and its
      message, however values are serialised. */
  lemma FailureLabels(e: Thrown, email: string, flag: Option<int>, stringify: Value -> string)
    ensures var r := Handle(InviteUser(email, flag), Throw(e), stringify);
      r.isError == Some(true) && StartsWith(r.content[0].text, "Error inviting user: ")
    ensures var r := Handle(ListUsers, Throw(e), stringify);
      r.isError == Some(true) && StartsWith(r.content[0].text, "Error fetching users: ")
  {
    InviteFailureLabel(e, email, flag, stringify);
    ListFailureLabel(e, stringify);
  }

  lemma InviteFailureLabel(e: Thrown, email: string, flag: Option<int>, stringify: Value -> string)
    ensures var r := Handle(InviteUser(email, flag), Throw(e), stringify);
      r.isError == Some(true) && StartsWith(r.content[0].text, "Error inviting user: ")
  {
    InvitePrefix();
    ErrorLabel(e, "inviting user");
  }

  lemma ListFailureLabel(e: Thrown, stringify: Value -> string)
    ensures var r := Handle(ListUsers, Throw(e), stringify);
      r.isError == Some(true) && StartsWith(r.content[0].text, "Error fetching users: ")
  {
    ListPrefix();
    ErrorLabel(e, "fetching users");
  }

  /** Proof helper: the two error prefixes, spelled out. */
  lemma InvitePrefix()
    ensures "Error " + "inviting user" + ": " == "Error inviting user: "
  {
  }

  lemma ListPrefix()
    ensures "Error " + "fetching users" + ": " == "Error fetching users: "
  {
  }

  /** An error response starts with "Error ", the operation and ": ". */
  lemma ErrorLabel(e: Thrown, operation: string)
    ensures StartsWith(CreateErrorResponse(e, operation).content[0].text, "Error " + operation + ": ")
  {
    var prefix := "Error " + operation + ": ";
    var text := CreateErrorResponse(e, operation).content[0].text;
    assert text == prefix + ErrorMessage(e);
    assert text[..|prefix|] == prefix;
  }
}
