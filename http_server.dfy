/** The HTTP front end: a table of open server-sent-event streams keyed by
    session id, the `GET /sse` handler that opens one, the `POST /message`
    handler that routes a client message to its stream, and `GET /health`.
    A transport is an opaque handle that knows its own session id; whether
    connecting and starting it succeeds, and whether response headers were
    already sent when it failed, are inputs. */
module HttpServer {
  import opened JsValue

  datatype Transport = Transport(sessionId: string, handle: nat)

  /** What a handler does with its response. */
  datatype Reply =
    | Streaming                      // the SSE stream stays open
    | Send(status: int, body: string)
    | Json(payload: Value)
    | Forward(transport: Transport)  // handed to the transport's message handler
    | Silent                         // nothing more is written

  class Server {
    var transports: map<string, Transport>
    const version: string

    /** Every transport is filed under its own session id. */
    ghost predicate Valid()
      reads this
    {
      forall k :: k in transports ==> transports[k].sessionId == k
    }

    constructor(version: string)
      ensures transports == map[] && this.version == version && Valid()
    {
      transports := map[];
      this.version := version;
    }

    /** `GET /sse`: the new transport is filed under its session id, then
        connected and started; if that fails the entry is removed again and
        a 500 is sent unless headers have already gone out. */
    method OpenStream(t: Transport, startSucceeds: bool, headersSent: bool) returns (reply: Reply)
      requires Valid()
      modifies this
      ensures Valid()
      ensures startSucceeds ==> transports == old(transports)[t.sessionId := t] && reply == Streaming
      ensures !startSucceeds ==> t.sessionId !in transports && transports == old(transports) - {t.sessionId}
      ensures !startSucceeds && !headersSent ==> reply == Send(500, "Failed to start SSE transport")
      ensures !startSucceeds && headersSent ==> reply == Silent
    {
      transports := transports[t.sessionId := t];
      if startSucceeds {
        reply := Streaming;
      } else {
        transports := transports - {t.sessionId};
        if !headersSent {
          reply := Send(500, "Failed to start SSE transport");
        } else {
          reply := Silent;
        }
      }
    }

    /** The stream's `close` event: its entry, and only it, is removed. */
    method CloseStream(sessionId: string)
      requires Valid()
      modifies this
      ensures Valid()
      ensures transports == old(transports) - {sessionId}
      ensures sessionId !in old(transports) ==> transports == old(transports)
    {
      transports := transports - {sessionId};
    }

    /** `POST /message?sessionId=…`: a missing or empty id is a 400, an
        unknown one a 404, and a known one is handed to the transport filed
        under it. The table is only read. */
    method PostMessage(sessionId: Option<string>) returns (reply: Reply)
      requires Valid()
      ensures sessionId.None? || sessionId == Some("") ==> reply == Send(400, "Missing sessionId query parameter")
      ensures sessionId.Some? && sessionId.value != "" && sessionId.value !in transports ==>
        reply == Send(404, "Session not found: " + sessionId.value)
      ensures sessionId.Some? && sessionId.value != "" && sessionId.value in transports ==> reply == Forward(transports[sessionId.value])
      ensures reply.Forward? ==> sessionId == Some(reply.transport.sessionId)
    {
      if sessionId.None? || sessionId.value == "" {
        return Send(400, "Missing sessionId query parameter");
      }
      var sid := sessionId.value;
      if sid !in transports {
        return Send(404, "Session not found: " + sid);
      }
      reply := Forward(transports[sid]);
    }

    /** `GET /health` always answers with status "ok" and the configured version. */
    method Health() returns (reply: Reply)
      ensures reply == Json(Obj([Prop("status", Str("ok")), Prop("version", Str(version))]))
    {
      reply := Json(Obj([Prop("status", Str("ok")), Prop("version", Str(version))]));
    }
  }

  /** One session's life: once its stream is open its messages reach its
      transport, and once the stream closes they are answered with 404;
      other sessions are untouched throughout. */
  method SessionLifecycle(t: Transport, other: Transport) returns (whileOpen: Reply, afterClose: Reply, otherAfter: Reply)
    requires t.sessionId != "" && other.sessionId != "" && t.sessionId != other.sessionId
    ensures whileOpen == Forward(t)
    ensures afterClose == Send(404, "Session not found: " + t.sessionId)
    ensures otherAfter == Forward(other)
  {
    var server := new Server("1.0.0");
    var r := server.OpenStream(other, true, false);
    r := server.OpenStream(t, true, false);
    whileOpen := server.PostMessage(Some(t.sessionId));
    server.CloseStream(t.sessionId);
    afterClose := server.PostMessage(Some(t.sessionId));
    otherAfter := server.PostMessage(Some(other.sessionId));
  }

  /** A stream whose start fails leaves no entry behind: a message for it is
      answered with 404. */
  method FailedStartLeavesNoEntry(t: Transport, headersSent: bool) returns (start: Reply, message: Reply)
    requires t.sessionId != ""
    ensures start == (if headersSent then Silent else Send(500, "Failed to start SSE transport"))
    ensures message == Send(404, "Session not found: " + t.sessionId)
  {
    var server := new Server("1.0.0");
    start := server.OpenStream(t, false, headersSent);
    message := server.PostMessage(Some(t.sessionId));
  }
}
