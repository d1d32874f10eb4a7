/** What a client-module method sends to the BusinessMap API, and how the
    module turns the reply into its own result. A method first calls the
    read-only guard when it changes anything, then sends one request, then
    returns the reply envelope's `data` field (or nothing, for the methods
    declared `Promise<void>`). */
module Requests {
  import opened JsValue
  import opened Text
  import Client

  datatype Verb = GET | POST | PUT | PATCH | DELETE

  /** One request: its verb, its path as the segments between slashes, the
      query parameters when the method passes any, and the JSON body when
      it sends one. */
  datatype Request = Request(verb: Verb, path: seq<string>, query: Option<seq<Prop>>, body: Option<Value>)

  /** A method's behaviour: the label it hands to the read-only guard, if it
      calls the guard, the request it sends, and whether it returns the
      envelope's data. */
  datatype Call = Call(guard: Option<string>, request: Request, returnsData: bool)

  /** A numeric path segment, as a template literal writes it. */
  function Id(n: int): string
  {
    IntToString(n)
  }

  /** A numeric segment reads back as the number it was written from. */
  lemma IdReadsBack(n: int)
    ensures ParseInt(Id(n)) == Some(n)
  {
    ParseIntOfIntToString(n, "");
    assert IntToString(n) + "" == IntToString(n);
  }

  /** The path as the HTTP library receives it: each segment after a slash. */
  function Url(path: seq<string>): (r: string)
    ensures path == [] ==> r == ""
    ensures path != [] ==> StartsWith(r, "/" + path[0])
  {
    if path == [] then "" else "/" + path[0] + Url(path[1..])
  }

  /** A call that changes something: the guard is called with the
      operation's name before the request goes out. */
  function Guarded(operation: string, verb: Verb, path: seq<string>, body: Option<Value>, returnsData: bool): Call
  {
    Call(Some(operation), Request(verb, path, None, body), returnsData)
  }

  /** A plain read: no guard, no query, no body, and the data is returned. */
  function Read(path: seq<string>): Call
  {
    Call(None, Request(GET, path, None, None), true)
  }

  /** The guard is called exactly by the methods that change something,
      which are exactly those that do not use GET. */
  predicate GuardedIffMutating(c: Call)
  {
    c.guard.Some? <==> c.request.verb != GET
  }

  /** The result of running a method, with the request it sent, if any. */
  datatype Performed = Performed(result: Result<Value>, sent: Option<Request>)

  /** Running a method. `guard` says what the read-only guard throws for a
      label (nothing when writing is allowed); `reply` is the outcome of the
      request if it goes out. A refusal by the guard ends the method before
      any request; a failed request surfaces as the interceptor's error; a
      reply without a body makes reading its `data` throw. */
  function Perform(c: Call, guard: string -> Option<Thrown>, reply: Client.Outcome): (r: Performed)
    ensures r.sent.None? <==> c.guard.Some? && guard(c.guard.value).Some?
    ensures r.sent.None? ==> r.result == Throw(guard(c.guard.value).value)
    ensures r.sent.Some? ==> r.sent.value == c.request
    ensures r.sent.Some? && reply.Failed? ==> r.result == Throw(Client.TransformError(reply.error))
    ensures r.sent.Some? && reply.Reply? && c.returnsData ==> r.result == Member(reply.data, "data")
    ensures r.sent.Some? && reply.Reply? && !c.returnsData ==> r.result == Ok(Undefined)
  {
    if c.guard.Some? && guard(c.guard.value).Some? then
      Performed(Throw(guard(c.guard.value).value), None)
    else
      var result := match Client.Through(reply)
        case Throw(e) => Throw(e)
        case Ok(body) => if c.returnsData then Member(body, "data") else Ok(Undefined);
      Performed(result, Some(c.request))
  }

  /** A method that does not call the guard behaves the same whether or not
      the server is read-only. */
  lemma UnguardedIgnoresMode(c: Call, g1: string -> Option<Thrown>, g2: string -> Option<Thrown>, reply: Client.Outcome)
    requires c.guard.None?
    ensures Perform(c, g1, reply) == Perform(c, g2, reply)
  {
  }

  /** A guarded method that is refused sends nothing, whatever the upstream
      would have answered. */
  lemma RefusedSendsNothing(c: Call, guard: string -> Option<Thrown>, r1: Client.Outcome, r2: Client.Outcome)
    requires c.guard.Some? && guard(c.guard.value).Some?
    ensures Perform(c, guard, r1).sent.None?
    ensures Perform(c, guard, r1) == Perform(c, guard, r2)
  {
  }
}
