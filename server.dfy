/**
  The mock server: the connect app with its stage list, the listening server
  it becomes, the terminal writer that answers a request and applies the
  close policy, and the entry points `serve` and `jort`.
 */
module MockServer {
  import opened JsValues
  import opened ContentType
  import opened Config
  import opened Pipeline
  import opened Url

  /** What the terminal stage writes: head, body, and whether `res.end()` was called. */
  datatype Response = Response(status: int, headers: HeaderMap, body: string, ended: bool)

  /**
    The terminal stage's response for a configuration: the resolved status and
    headers, a serialised body for an object-typed payload (left unended), or
    the payload's text, ended.
   */
  function WriterResponse(c: Conf, stringify: JsValue -> string): (r: Response)
    requires c.payload != Undefined
    ensures r.status == c.status && r.headers == c.headers
    ensures r.ended <==> !IsObjectTyped(c.payload)
    ensures IsObjectTyped(c.payload) ==> r.body == stringify(c.payload)
    ensures !IsObjectTyped(c.payload) ==> r.body == ToText(c.payload)
    ensures c.payload.Str? ==> r.body == c.payload.text
  {
    if IsObjectTyped(c.payload) then Response(c.status, c.headers, stringify(c.payload), false)
    else Response(c.status, c.headers, ToText(c.payload), true)
  }

  /** `if (!leaveOpen) server.close()`, reached only for a payload that is not object-typed. */
  predicate ClosesAfterResponse(c: Conf)
    ensures ClosesAfterResponse(c) <==> !c.payload.Null? && !c.payload.Obj? && c.leaveOpen != Some(true)
  {
    !IsObjectTyped(c.payload) && !Truthy(c.leaveOpen)
  }

  /**
    What a client observes for one request: the connection refused, the
    response together with the waits and the middlewares the chain ran first,
    or, for a chain with no terminal writer, the waits and middlewares and
    no response: the request then goes to connect's final handler.
   */
  datatype Reply =
    | Refused
    | Answered(response: Response, waited: seq<int>, ran: seq<MiddlewareId>)
    | Unanswered(waited: seq<int>, ran: seq<MiddlewareId>)

  datatype Lifecycle = Assembling | Listening | Closed

  /** A TCP port a server can be reached on. */
  type Port = p: int | 1 <= p <= 65535 witness 1

  /** The result of port allocation, an outside service. */
  datatype Allocation = Allocated(port: Port) | AllocationFailed(error: string)

  /** How the promise `serve` returns settles. */
  datatype Settled = Resolved(server: Server) | Rejected(error: string)

  /** How the promise `jort` returns settles. */
  datatype UrlSettled = UrlResolved(url: string) | UrlRejected(error: string)

  /**
    A connect app and the HTTP server it listens as. The resolved
    configuration is what the terminal stage's closure captured.
   */
  class Server {
    const conf: Conf
    const stringify: JsValue -> string
    var stages: seq<Stage>
    var state: Lifecycle
    var address: Address

    /** `connect()`: a new app with no stages. */
    constructor (conf: Conf, stringify: JsValue -> string)
      requires conf.payload != Undefined
      ensures this.conf == conf && this.stringify == stringify
      ensures stages == [] && state == Assembling
    {
      this.conf := conf;
      this.stringify := stringify;
      stages := [];
      state := Assembling;
      address := Address("", 0);
    }

    /** `app.use(stage)`. */
    method Use(s: Stage)
      modifies this`stages
      ensures stages == old(stages) + [s]
    {
      stages := stages + [s];
    }

    /** `app.listen(port)`, bound at the address the operating system reports. */
    method Listen(a: Address)
      modifies this`state, this`address
      ensures state == Listening && address == a
    {
      state := Listening;
      address := a;
    }

    /** `server.close()`. */
    method Close()
      modifies this`state
      ensures state == Closed
    {
      state := Closed;
    }

    /**
      The terminal stage: write the status and headers, then the body; for a
      payload that is not object-typed end the response and close the server
      unless `leaveOpen` is truthy.
     */
    method WriteResponse() returns (r: Response)
      requires state == Listening && conf.payload != Undefined
      modifies this`state
      ensures r == WriterResponse(conf, stringify)
      ensures state == if ClosesAfterResponse(conf) then Closed else Listening
    {
      if IsObjectTyped(conf.payload) {
        r := Response(conf.status, conf.headers, stringify(conf.payload), false);
      } else {
        r := Response(conf.status, conf.headers, ToText(conf.payload), true);
        if !Truthy(conf.leaveOpen) {
          Close();
        }
      }
    }

    /**
      One incoming request. A server that is not listening refuses the
      connection. Otherwise every stage runs in order: a delay waits and then
      passes control on, a middleware passes it on, and the terminal stage
      answers and also calls `next`. A chain can hold at most one writer,
      because a second `writeHead` on a response already sent throws.
     */
    method HandleRequest() returns (reply: Reply)
      requires conf.payload != Undefined && RespondCount(stages) <= 1
      modifies this`state
      ensures old(state) != Listening ==> reply == Refused && state == old(state)
      ensures old(state) == Listening ==>
        && reply == (if RespondCount(stages) == 1
                     then Answered(WriterResponse(conf, stringify), Waits(stages), CustomIds(stages))
                     else Unanswered(Waits(stages), CustomIds(stages)))
        && state == if RespondCount(stages) == 1 && ClosesAfterResponse(conf) then Closed else Listening
    {
      if state != Listening {
        reply := Refused;
        return;
      }
      var waited: seq<int> := [];
      var ran: seq<MiddlewareId> := [];
      var response: Option<Response> := None;
      for i := 0 to |stages|
        invariant waited == Waits(stages[..i]) && ran == CustomIds(stages[..i])
        invariant response == if RespondCount(stages[..i]) == 0 then None else Some(WriterResponse(conf, stringify))
        invariant state == if RespondCount(stages[..i]) == 1 && ClosesAfterResponse(conf) then Closed else Listening
      {
        assert stages[..i + 1] == stages[..i] + [stages[i]];
        StepAppend(stages[..i], stages[i]);
        match stages[i] {
          case Delay(ms) =>
            waited := waited + [ms];
          case Custom(m) =>
            ran := ran + [m];
          case Respond =>
            NoWriterBeforeWriter(stages, i);
            var r := WriteResponse();
            response := Some(r);
        }
      }
      assert stages[..|stages|] == stages;
      if response.Some? {
        reply := Answered(response.value, waited, ran);
      } else {
        reply := Unanswered(waited, ran);
      }
    }
  }

  /**
    Builds the app for a resolved configuration: the delay stage when
    `delay > 0`, the `use` middlewares one `app.use` at a time, the terminal
    writer, and then listens.
   */
  method StartServer(conf: Conf, stringify: JsValue -> string, at: Address) returns (server: Server)
    requires conf.payload != Undefined
    ensures fresh(server)
    ensures server.conf == conf && server.stringify == stringify
    ensures server.stages == PipelineFor(conf.delay, conf.use)
    ensures server.state == Listening && server.address == at
  {
    server := new Server(conf, stringify);
    if conf.delay.Some? && conf.delay.value > 0 {
      server.Use(Delay(conf.delay.value));
    }
    assert server.stages == DelayStages(conf.delay);
    if conf.use.Some? {
      match conf.use.value
      case Many(ms) =>
        var i := 0;
        while i < |ms|
          invariant 0 <= i <= |ms|
          invariant server.stages == DelayStages(conf.delay) + CustomStages(ms[..i])
        {
          CustomStagesSnoc(ms[..i], ms[i]);
          assert ms[..i + 1] == ms[..i] + [ms[i]];
          server.Use(Custom(ms[i]));
          i := i + 1;
        }
        assert ms[..|ms|] == ms;
      case One(m) =>
        assert CustomStages([m]) == [Custom(m)] + CustomStages([m][1..]);
        assert [m][1..] == [];
        server.Use(Custom(m));
    }
    assert server.stages == DelayStages(conf.delay) + UseStages(conf.use);
    server.Use(Respond);
    server.Listen(at);
  }

  /**
    `serve(payload, options)` with the error path returning at once: a failed
    port allocation rejects and starts nothing; otherwise the server listens
    on the allocated port with the assembled chain.
   */
  method Serve(payloadArg: JsValue, optionsArg: Option<Options>, allocation: Allocation,
               host: string, stringify: JsValue -> string)
    returns (settled: Settled)
    ensures allocation.AllocationFailed? ==> settled == Rejected(allocation.error)
    ensures allocation.Allocated? ==>
      && settled.Resolved? && fresh(settled.server)
      && settled.server.conf == ServeConf(payloadArg, optionsArg)
      && settled.server.stringify == stringify
      && settled.server.stages == PipelineFor(settled.server.conf.delay, settled.server.conf.use)
      && settled.server.state == Listening
      && settled.server.address == Address(host, allocation.port)
  {
    var conf := ServeConf(payloadArg, optionsArg);
    if allocation.AllocationFailed? {
      settled := Rejected(allocation.error);
    } else {
      var server := StartServer(conf, stringify, Address(host, allocation.port));
      settled := Resolved(server);
    }
  }

  /**
    `serve` as written: after a failed allocation it rejects but goes on to
    build the app and listen with no port, so the operating system picks
    `osPort` and a server is left listening that no caller holds.
   */
  method ServeAsWritten(payloadArg: JsValue, optionsArg: Option<Options>, allocation: Allocation,
                        host: string, osPort: Port, stringify: JsValue -> string)
    returns (settled: Settled, server: Server)
    ensures fresh(server) && server.state == Listening
    ensures server.conf == ServeConf(payloadArg, optionsArg)
    ensures server.stages == PipelineFor(server.conf.delay, server.conf.use)
    ensures allocation.AllocationFailed? ==>
      settled == Rejected(allocation.error) && server.address == Address(host, osPort)
    ensures allocation.Allocated? ==>
      settled == Resolved(server) && server.address == Address(host, allocation.port)
  {
    var conf := ServeConf(payloadArg, optionsArg);
    var port := if allocation.Allocated? then allocation.port else osPort;
    server := StartServer(conf, stringify, Address(host, port));
    if allocation.AllocationFailed? {
      settled := Rejected(allocation.error);
    } else {
      settled := Resolved(server);
    }
  }

  /** A failed allocation under the code as written: the promise rejects and a server still listens. */
  method AllocationFailureLeaksServer(error: string, host: string, osPort: Port, stringify: JsValue -> string)
    returns (settled: Settled, leaked: Lifecycle)
    ensures settled == Rejected(error) && leaked == Listening
  {
    var server;
    settled, server := ServeAsWritten(Undefined, None, AllocationFailed(error), host, osPort, stringify);
    leaked := server.state;
  }

  /** `jort(payload, options)`: the URL of the listening server, or the allocation error. */
  method Jort(payloadArg: JsValue, optionsArg: Option<Options>, allocation: Allocation,
              host: string, stringify: JsValue -> string)
    returns (settled: UrlSettled)
    ensures allocation.AllocationFailed? ==> settled == UrlRejected(allocation.error)
    ensures allocation.Allocated? ==> settled == UrlResolved(FormatUrl(Address(host, allocation.port)))
    ensures allocation.Allocated? && host != "" && host[0] != '[' ==>
      ParseUrl(settled.url) == Some(Address(host, allocation.port))
  {
    var s := Serve(payloadArg, optionsArg, allocation, host, stringify);
    match s
    case Rejected(e) =>
      settled := UrlRejected(e);
    case Resolved(server) =>
      settled := UrlResolved(FormatUrl(server.address));
      if host != "" && host[0] != '[' {
        FormatUrlRoundTrip(server.address);
      }
  }

  /**
    The first request to a freshly served mock: the resolved response, a wait
    exactly when `delay > 0`, and the `use` middlewares run in order.
   */
  method FirstRequest(payloadArg: JsValue, optionsArg: Option<Options>, port: Port,
                      host: string, stringify: JsValue -> string)
    returns (reply: Reply)
    ensures var c := ServeConf(payloadArg, optionsArg);
      reply == Answered(WriterResponse(c, stringify),
                        if c.delay.Some? && c.delay.value > 0 then [c.delay.value] else [],
                        UseIds(c.use))
  {
    var s := Serve(payloadArg, optionsArg, Allocated(port), host, stringify);
    PipelineShape(s.server.conf.delay, s.server.conf.use);
    reply := s.server.HandleRequest();
  }

  /**
    A text payload with no options: the first request gets 200, a
    `text/plain` Content-Type and the text, ended; the server then closes and
    the next connection is refused.
   */
  method ServeTextOnce(text: string, port: Port, host: string, stringify: JsValue -> string)
    returns (first: Reply, second: Reply)
    ensures first == Answered(
      Response(DefaultStatus, map[ContentTypeKey := Some(TextPlain)], text, true), [], [])
    ensures second == Refused
  {
    var s := Serve(Str(text), None, Allocated(port), host, stringify);
    var server := s.server;
    DefaultHeaders(Str(text));
    PipelineShape(None, None);
    first := server.HandleRequest();
    second := server.HandleRequest();
  }

  /** With `leaveOpen` the server stays up and a second request gets the same answer. */
  method ServeLeftOpen(payloadArg: JsValue, options: Options, port: Port, host: string,
                       stringify: JsValue -> string)
    returns (first: Reply, second: Reply)
    requires options.leaveOpen == Some(true)
    ensures first.Answered? && second == first
  {
    var s := Serve(payloadArg, Some(options), Allocated(port), host, stringify);
    var server := s.server;
    PipelineShape(server.conf.delay, server.conf.use);
    first := server.HandleRequest();
    second := server.HandleRequest();
  }

  /**
    An object payload is written unended and never closes the server, even
    without `leaveOpen`: a second request is answered the same way.
   */
  method ServeObjectStaysOpen(id: nat, port: Port, host: string, stringify: JsValue -> string)
    returns (first: Reply, second: Reply)
    ensures first.Answered? && !first.response.ended
    ensures first.response.body == stringify(Obj(id))
    ensures second == first
  {
    var s := Serve(Obj(id), None, Allocated(port), host, stringify);
    var server := s.server;
    PipelineShape(None, None);
    first := server.HandleRequest();
    second := server.HandleRequest();
  }

  /** With no options the headers hold exactly the inferred Content-Type. */
  lemma DefaultHeaders(payloadArg: JsValue)
    ensures ServeConf(payloadArg, None).headers
         == map[ContentTypeKey := DataTypeToContentType(TypeOf(ServePayload(payloadArg)))]
  {
  }

  /**
    Default options: status 200, the Content-Type the payload's kind selects,
    and for a text payload, the empty text of a missing payload included, the
    text itself as the ended body.
   */
  lemma DefaultResponse(payloadArg: JsValue, stringify: JsValue -> string)
    ensures var p := ServePayload(payloadArg);
      var r := WriterResponse(ServeConf(payloadArg, None), stringify);
      && r.status == DefaultStatus
      && r.headers == map[ContentTypeKey := DataTypeToContentType(TypeOf(p))]
      && (p.Str? ==>
            r.body == p.text && r.ended && r.headers[ContentTypeKey] == Some(TextPlain))
      && (IsObjectTyped(p) ==>
            r.body == stringify(p) && !r.ended && r.headers[ContentTypeKey] == Some(ApplicationJson))
      && (payloadArg.Undefined? ==>
            r == Response(DefaultStatus, map[ContentTypeKey := Some(TextPlain)], "", true))
  {
  }

  /** The server closes after answering exactly when the payload is not object-typed and `leaveOpen` is falsy. */
  lemma ClosePolicy(payloadArg: JsValue, options: Options)
    ensures var c := ServeConf(payloadArg, Some(options));
      ClosesAfterResponse(c) <==>
        !IsObjectTyped(ServePayload(payloadArg)) && options.leaveOpen != Some(true)
  {
  }
}
