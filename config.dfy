/**
  Option resolution: the options object a caller passes, the configuration
  `makeConf` builds from it, and the argument defaulting `serve` does before it.
 */
module Config {
  import opened JsValues
  import opened ContentType

  /** A user-supplied middleware, known only by identity. */
  type MiddlewareId = nat

  /** The `use` option: one middleware function, or an array of them. */
  datatype Use = One(m: MiddlewareId) | Many(ms: seq<MiddlewareId>)

  /** The options object; `None` is a property that is absent (`undefined`). */
  datatype Options = Options(
    status: Option<int>,
    headers: Option<HeaderMap>,
    delay: Option<int>,
    use: Option<Use>,
    leaveOpen: Option<bool>)

  /** The empty options object `{}`. */
  const NoOptions := Options(None, None, None, None, None)

  const DefaultStatus := 200

  /** The resolved configuration of one mock response. */
  datatype Conf = Conf(
    payload: JsValue,
    status: int,
    headers: HeaderMap,
    delay: Option<int>,
    use: Option<Use>,
    leaveOpen: Option<bool>)

  /**
    `makeConf(payload, options)`: an undefined payload becomes `''`, status and
    headers take their defaults only when absent, and the rest is copied over.
   */
  function MakeConf(payload: JsValue, options: Options): (c: Conf)
    ensures c.payload != Undefined
    ensures payload.Undefined? ==> c.payload == Str("")
    ensures !payload.Undefined? ==> c.payload == payload
    ensures options.status.None? ==> c.status == DefaultStatus
    ensures options.status.Some? ==> c.status == options.status.value
    ensures options.headers.None? ==> c.headers == map[]
    ensures options.headers.Some? ==> c.headers == options.headers.value
    ensures c.delay == options.delay && c.use == options.use && c.leaveOpen == options.leaveOpen
  {
    Conf(
      if payload.Undefined? then Str("") else payload,
      if options.status.Some? then options.status.value else DefaultStatus,
      if options.headers.Some? then options.headers.value else map[],
      options.delay,
      options.use,
      options.leaveOpen)
  }

  /** The options object that spells out every field of a resolved configuration. */
  function AsOptions(c: Conf): (o: Options)
    ensures o.status.Some? && o.headers.Some?
  {
    Options(Some(c.status), Some(c.headers), c.delay, c.use, c.leaveOpen)
  }

  /** Resolving a configuration that is already resolved gives it back: `makeConf` is idempotent. */
  lemma MakeConfIdempotent(payload: JsValue, options: Options)
    ensures var c := MakeConf(payload, options); MakeConf(c.payload, AsOptions(c)) == c
  {
  }

  /** `serve`'s first argument: missing or `undefined` becomes `''`. */
  function ServePayload(arg: JsValue): (p: JsValue)
    ensures p != Undefined
    ensures arg.Undefined? ==> p == Str("")
    ensures !arg.Undefined? ==> p == arg
  {
    if arg.Undefined? then Str("") else arg
  }

  /** `serve`'s second argument: a missing or `undefined` options object becomes `{}`. */
  function ServeOptions(arg: Option<Options>): (o: Options)
    ensures arg.Some? ==> o == arg.value
    ensures arg.None? ==> o.status.None? && o.headers.None? && o.delay.None? && o.use.None? && o.leaveOpen.None?
  {
    if arg.Some? then arg.value else NoOptions
  }

  /**
    The configuration `serve` works with: its arguments defaulted, resolved by
    `makeConf`, and the headers made to carry a content type.
   */
  function ServeConf(payloadArg: JsValue, optionsArg: Option<Options>): (c: Conf)
    ensures c.payload != Undefined
    ensures HasContentTypeKey(c.headers)
  {
    var c := MakeConf(ServePayload(payloadArg), ServeOptions(optionsArg));
    c.(headers := EnsureContentTypeHeader(c.payload, c.headers))
  }

  /**
    With no arguments at all the server answers 200 with an empty text body
    labelled `text/plain`.
   */
  lemma ServeConfDefaults()
    ensures ServeConf(Undefined, None)
         == Conf(Str(""), DefaultStatus, map[ContentTypeKey := Some(TextPlain)], None, None, None)
  {
  }

  /**
    What `serve` resolves, field by field: status and headers from the options
    or their defaults; a caller's headers are kept entry by entry and gain
    `Content-Type` exactly when they carry no content-type key.
   */
  lemma ServeConfFields(payloadArg: JsValue, options: Options)
    ensures var c := ServeConf(payloadArg, Some(options));
      && c.payload == ServePayload(payloadArg)
      && c.status == (if options.status.Some? then options.status.value else DefaultStatus)
      && c.delay == options.delay && c.use == options.use && c.leaveOpen == options.leaveOpen
      && (options.headers.Some? ==>
            c.headers == EnsureContentTypeHeader(c.payload, options.headers.value))
      && (options.headers.Some? && HasContentTypeKey(options.headers.value) ==>
            c.headers == options.headers.value)
      && (options.headers.Some? && !HasContentTypeKey(options.headers.value) ==>
            c.headers == options.headers.value[ContentTypeKey := DataTypeToContentType(TypeOf(c.payload))])
      && (options.headers.None? ==>
            c.headers == map[ContentTypeKey := DataTypeToContentType(TypeOf(c.payload))])
  {
  }
}
