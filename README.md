# jort: a Dafny model of a single-shot HTTP mock server

jort starts an HTTP server that answers with a configured payload, and
gives back the server's URL. The payload can be text or an object. The
caller can set the status, the headers, a delay, extra middlewares and
whether the server stays open. This project models `index.js`:

- how `makeConf` resolves the options;
- how `ensureContentTypeHeader` infers `Content-Type`;
- the chain of stages `serve` installs on the connect app: optional delay, user middlewares, terminal writer;
- the terminal writer and its close policy;
- the URL that `jort` builds from the server's address.

Modules, one per component of `index.js`:

- `JsValues` (`js_values.dfy`): the JavaScript values the code tells apart, with `typeof`, `toString()` and truthiness.
- `ContentType` (`content_type.dfy`): the table from `typeof` to content type, and the case-insensitive header scan.
- `Config` (`config.dfy`): the options object, `makeConf`, and `serve`'s argument defaulting.
- `Pipeline` (`pipeline.dfy`): the stages, the chain `serve` installs as a specification function, and lemmas about its order and contents.
- `Url` (`url.dfy`): how `url.format` renders `http://host:port/`, and a parser that inverts it.
- `MockServer` (`server.dfy`): a `Server` class that holds the app's stage list and the server's lifecycle. It also has the terminal stage, request handling, `serve`, `jort`, and client methods that replay the scenarios in `test/basic.js`.

## Model

| member | source | states |
|---|---|---|
| `JsValues.TypeOf` | index.js:48 | `typeof` yields "object" exactly for null and objects, "string" exactly for strings, and "undefined" exactly for undefined |
| `JsValues.IsObjectTyped` | index.js:89 | `typeof payload === "object"` holds exactly for null and objects |
| `JsValues.ToText` | index.js:92 | `toString()` of a string payload is the string itself |
| `JsValues.Truthy` | index.js:94 | `leaveOpen` is truthy exactly when it is given and true; absent counts as falsy |
| `ContentType.DataTypeToContentType` | index.js:40-43 | "string" maps to `text/plain; charset=utf-8` and "object" to `application/json; charset=utf-8`; any other type name finds no entry (undefined) |
| `ContentType.ToLower` | index.js:46 | lower-casing keeps the length and lower-cases each character |
| `ContentType.IsContentTypeKey` | index.js:46 | only a twelve-character key can equal `content-type` once lower-cased |
| `ContentType.ContentTypeKeyCapitalisations` | index.js:45-47 | a key is a content-type key if and only if it has twelve characters and each is the character of `content-type` or of `CONTENT-TYPE` at that position |
| `ContentType.HasContentTypeKey` | index.js:45-47 | the `some` scan succeeds exactly when the set of keys naming the content type is non-empty |
| `ContentType.ContentTypeKeyNamesItself` | index.js:46-48 | the key `Content-Type` that the function inserts passes its own case-insensitive test |
| `ContentType.EnsureContentTypeHeader` | index.js:44-50 | afterwards a content-type key is always present. The result equals the input exactly when the input already had one. Every existing entry is kept. The only key that can be new is `Content-Type`, and when added its value is the table entry for the payload's `typeof` |
| `ContentType.AddsExactlyOneContentTypeKey` | index.js:44-50 | with no content-type key in the input, the result has exactly one such key, `Content-Type`, and exactly one more entry than the input |
| `ContentType.EnsureContentTypeHeaderIdempotent` | index.js:45-49 | a second call, with any payload, returns the first call's result unchanged |
| `ContentType.CustomContentTypeKept` | index.js:45-49 | a caller-supplied `Content-type` header is returned unchanged, and no `Content-Type` is added |
| `Config.MakeConf` | index.js:21-38 | an undefined payload becomes `''` and any other payload is kept. Status is 200 when absent, otherwise the given one. Headers are `{}` when absent, otherwise the given map itself. `delay`, `use` and `leaveOpen` are copied, so absent stays absent |
| `Config.MakeConfIdempotent` | index.js:21-38 | resolving an already resolved configuration again gives it back unchanged |
| `Config.ServePayload` | index.js:53 | a missing or undefined first argument becomes `''`, so an undefined argument gives the empty string; any other argument is kept |
| `Config.ServeOptions` | index.js:55 | a missing options argument becomes the empty object; a given one is used as is |
| `Config.ServeConf` | index.js:53-59 | the configuration `serve` works with always has a defined payload and a content-type header |
| `Config.ServeConfDefaults` | index.js:53-59 | with no arguments: payload `''`, status 200, headers exactly `{Content-Type: text/plain; charset=utf-8}`, and no delay, `use` or `leaveOpen` |
| `Config.ServeConfFields` | index.js:53-66 | field by field: defaulted payload, given or default status, options copied verbatim. A caller's header map is run through `ensureContentTypeHeader`: if it names the content type it is kept exactly, and otherwise it keeps every entry and gains `Content-Type` from the table. With no headers, the result holds only the inferred `Content-Type` |
| `Pipeline.DelayStages` | index.js:73-77 | at most one delay stage is installed |
| `Pipeline.UseIds` | index.js:78-86 | no `use` installs no middleware, a single function installs itself, and an array installs its elements in order |
| `Pipeline.PipelineFor` | index.js:73-87 | the chain has one stage per delay stage and per middleware, plus the writer, which comes last |
| `Pipeline.CustomStagesAt` | index.js:79-82 | the i-th installed middleware stage is the i-th element of the `use` array |
| `Pipeline.CustomStagesSnoc` | index.js:80-82 | each `forEach` step appends one stage for its middleware after those already installed |
| `Pipeline.PipelineShape` | index.js:73-97 | the chain's length is delay stages + middlewares + 1, and its last stage is the terminal writer. There is exactly one writer. The chain runs exactly the `use` middlewares, in the order supplied. It waits once, for `delay`, exactly when `delay > 0` |
| `Pipeline.DelayStagePresence` | index.js:73-77 | a delay stage occurs in the chain if and only if `delay > 0`, and then it is the first stage |
| `Pipeline.UseStageAt` | index.js:78-86 | the i-th middleware of `use` sits at position (number of delay stages + i), before the writer |
| `Pipeline.UseStageMembership` | index.js:78-86 | a middleware is installed if and only if the `use` option names it |
| `Url.NatToDecimal` | index.js:108 | a port is printed as a non-empty string of decimal digits with no leading zero, as `':' + port` prints it |
| `Url.DecimalRoundTrip` | index.js:108 | reading the printed decimal gives the port back |
| `Url.HostPart` | index.js:107 | a host containing `:` (an IPv6 address) is bracketed; any other host is used as is |
| `Url.FormatUrl` | index.js:105-110 | an empty host gives `http:/`; any other host gives a URL that starts with `http://` and ends with `/` |
| `Url.FormatUrlRoundTrip` | index.js:105-110 | for a non-empty host that does not start with `[`, which covers every address `server.address()` reports (index.js:107), parsing the formatted URL recovers the exact host and port |
| `Url.FormatUrlInjective` | index.js:105-110 | two different addresses, each with a non-empty host that does not start with `[` as every address `server.address()` reports (index.js:107) has, never format to the same URL |
| `MockServer.WriterResponse` | index.js:87-93 | the writer sends the resolved status and headers. It ends the response exactly when the payload is not object-typed. The body is the serialised payload for an object, and otherwise the payload's `toString()` text, which for a string is the string itself |
| `MockServer.ClosesAfterResponse` | index.js:89-94 | the writer closes the server exactly when the payload is neither null nor an object and `leaveOpen` is not true |
| `MockServer.Server.constructor` | index.js:71 | a new app has no stages and is not yet listening |
| `MockServer.Server.Use` | index.js:74-84 | `app.use` appends one stage and changes nothing else |
| `MockServer.Server.Listen` | index.js:98 | after `listen` the server is listening at the given address |
| `MockServer.Server.Close` | index.js:94 | after `close` the server is closed |
| `MockServer.Server.WriteResponse` | index.js:87-97 | the terminal stage returns the writer's response. It closes the server exactly when the payload is not object-typed and `leaveOpen` is falsy; otherwise the server stays listening |
| `MockServer.Server.HandleRequest` | index.js:73-97 | a server that is not listening refuses the request and keeps its state. A listening server runs every stage of its chain in order. The reply records the waits and the middlewares, in the order they ran. With a writer in the chain the reply carries the writer's response, and the server closes as the close policy says. Without a writer there is no response and the server stays listening |
| `MockServer.StartServer` | index.js:71-98 | the fresh server's stages are exactly the specified chain for its `delay` and `use`, and it listens at the given address |
| `MockServer.Serve` | index.js:52-101 | corrected: a failed port allocation rejects with its error and starts no server. Otherwise the promise resolves to a fresh listening server with `serve`'s configuration, the specified chain, and the allocated port |
| `MockServer.ServeAsWritten` | index.js:68-99 | as written: a failed allocation rejects, but a server still ends up listening on a port chosen by the operating system. A successful one resolves to the listening server |
| `MockServer.AllocationFailureLeaksServer` | index.js:69-70 | counterexample: after a failed allocation the promise is rejected while the server it built is listening |
| `MockServer.Jort` | index.js:103-112 | resolves to `url.format` of the listening address, or rejects with the allocation error. For a non-empty host that is not already bracketed, parsing the URL gives back the host and the allocated port |
| `MockServer.FirstRequest` | index.js:57-98 | the first request to a new mock gets the resolved response. It waits once exactly when `delay > 0` and runs the `use` middlewares in order |
| `MockServer.ServeTextOnce` | index.js:87-94 | a text payload with no options is answered 200 with `text/plain; charset=utf-8` and the text, and the response is ended. The next connection is refused |
| `MockServer.ServeLeftOpen` | index.js:94 | with `leaveOpen` the second request gets exactly the first answer |
| `MockServer.ServeObjectStaysOpen` | index.js:89-90 | an object payload is written serialised and never ended, and the server stays open, so a second request gets the same answer |
| `MockServer.DefaultHeaders` | index.js:53-59 | without options the headers are exactly the `Content-Type` inferred from the defaulted payload, for any first argument including a missing one |
| `MockServer.DefaultResponse` | index.js:53-93 | with default options: status 200. A text payload gets `text/plain` and its text, ended. An object-typed payload gets `application/json` and its serialisation, not ended. A missing payload (`jort()`) gets 200, `text/plain` and an empty ended body |
| `MockServer.ClosePolicy` | index.js:89-94 | the server closes after a response if and only if the defaulted payload is not object-typed and `leaveOpen` is not true |

## Findings

| source | as written | input that shows it | evidently intended | confidence | as-written member | corrected member |
|---|---|---|---|---|---|---|
| index.js:69-70 | `if (err) reject(err);` does not return. The app is still assembled, and `app.listen(port)` runs with an undefined port, so the operating system picks one and a server listens that no caller holds | the port finder calls back with an error | return after rejecting, so that no server is started | high; not executed | `MockServer.ServeAsWritten`, `MockServer.AllocationFailureLeaksServer` | `MockServer.Serve` |

The rest of the model, `Jort` and the client methods, uses the corrected `MockServer.Serve`.

## Where the tests and the code differ

The model follows `index.js`:

- test/basic.js:8-15, test/basic.js:28-36, test/basic.js:81-91, test/basic.js:93-106 and test/basic.js:108-128 wait for a complete JSON body, and test/basic.js:149-162 also expects the server to close after answering an object payload once. In index.js:89-90 an object payload is written but neither ended nor followed by `server.close()`. `MockServer.ServeObjectStaysOpen` states what the code does.
- test/basic.js:130-139 expects `serve` to resolve to `{server, url}`. index.js:98 resolves to the server itself, so `MockServer.Serve` resolves to the server.
- test/basic.js:58-65, test/basic.js:141-147 and test/basic.js:178-344 exercise a "Could not serialize" error, an `ipv6` option and `jort.steps`. None of these exists in index.js.

## Left out

- Port allocation by `portfinder` is an external service. Its outcome is an input (`Allocation`); the port the operating system picks for `listen` with no port is the input `osPort`. Both are TCP ports from 1 to 65535 (`MockServer.Port`): neither source hands out port 0, so a URL without a port does not arise.
- The connect runtime is not modelled. `HandleRequest` assumes that every user middleware hands control on with `next()` and does not write the response itself. What connect's final handler does with the `next()` the writer calls, or with a chain that has no writer, is not modelled.
- Wall-clock timing of `setTimeout(next, delay)` is not modelled; the model records the requested delay. Node runs a timer set above 2^31 - 1 ms after 1 ms, and that is not modelled either.
- Promises and asynchrony are not modelled; `Settled` and `UrlSettled` give the outcome each promise settles with.
- `JSON.stringify` is the parameter `stringify`. The exception it throws for a cyclic object, at request time, is not modelled.
- The behaviour of user middleware bodies is foreign code; a middleware is an identity (`MiddlewareId`).
- `server.address()` is the input `host` together with the port. Requests that are in flight at the same time, and interleave, are not modelled.
- `ContentType.EnsureContentTypeHeader`: returns the new header map as a value. In index.js:48 the caller's own `options.headers` object gains the `Content-Type` entry in place, because `makeConf` passes it through by reference. The model does not capture that aliasing.
- `MockServer.Server.HandleRequest`: the writer reads the caller's payload and header objects afresh on each request, through the references its closure holds (`JSON.stringify(payload)` at index.js:90, `writeHead(status, headers)` at index.js:88). A caller that mutates either object after `serve` changes later answers. The model fixes both in `Conf` and `stringify`, so the equal second answers of `MockServer.ServeLeftOpen` and `MockServer.ServeObjectStaysOpen` hold only when the caller leaves those objects alone.
- `MockServer.Server.HandleRequest`: `res.writeHead` throws a RangeError for a status outside 100 to 999. connect then answers 500, and the `server.close()` of index.js:94 is never reached. The model sends any integer status and applies the close policy.
- `ContentType.ToLower`: lower-cases ASCII letters only. For the comparison with `content-type` this matches JavaScript's `toLowerCase`, because no other character lower-cases to a character of that string.
- Option values are typed more narrowly than in JavaScript: status and delay are integers, `leaveOpen` is a boolean or absent, `use` is a function or an array, and `headers` is absent or a map from names to strings or `undefined`. Fractional or NaN delays, other truthy `use` values, header values that are not strings, a `null` options object (which throws when destructured) and `headers: null` (on which `Object.keys` throws at index.js:45) are not modelled.
- `Url.FormatUrl` covers only the rules of Node's `url.format` that apply to these inputs: an IPv6 host is bracketed, port 0 is omitted, an empty host writes no authority. Escaping of other characters is not modelled.
- `MockServer.WriterResponse`: for a payload whose `typeof` is neither "string" nor "object" (a number, say), the inferred `Content-Type` is `undefined`. Current Node versions reject that header value in `writeHead` and throw; the model just records the header as `None`. In such a case the model answers with the resolved status and closes the server as the close policy says, whereas in Node `writeHead` throws at index.js:88, connect answers 500, and the `server.close()` of index.js:94 is never reached.
- `MockServer.Server.HandleRequest`: requires at most one writer in the chain. A second writer would call `writeHead` on a response already sent, which throws in Node. Every chain `serve` builds has exactly one writer (`Pipeline.PipelineShape`).
