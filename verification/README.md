# VertxWebContext in Dafny

A model of `VertxWebContext`, the class that adapts one Vert.x HTTP request to
pac4j's `WebContext` abstraction. The context

- takes a snapshot of the request when it is built: method, full URL, scheme,
  host, port, remote address, a header map (name to one value) and a parameter
  map (name to its values in order), plus an array-per-name copy of the
  parameters that `getRequestParameters` hands out;
- refuses to be built when the request's absolute URI does not parse;
- reads and writes session attributes in a session object it holds by
  reference but does not own, and can invalidate that session;
- passes request attributes through to the routing context's data store;
- stages a response in memory: a body that only grows, a status code and a
  header map, each overwritten by its setter.

Files:

- `wrappers.dfy` — `Option` (Java `null` is `None`) and `Result`.
- `collaborators.dfy` — the objects around the context: the session object
  (`Pac4jSessionAttributes`, with its custom-attributes map and profile slot),
  the routing context (its request and its data map), the request as the
  context reads it, and the outcome of parsing its URI.
- `capture.dfy` — putting a server's (name, value) enumeration into a map one
  entry at a time, and what that map holds.
- `vertx_web_context.dfy` — the context itself, a class whose snapshot fields
  are `const` (Java `final`) and whose response buffer is three `var` fields;
  each setter's `modifies` clause names the one field or object it changes.
- `scenarios.dfy` — call sequences of a consumer (invalidate twice, a setter
  followed by its getter, a refused URI), checked against the contracts alone.

Two behaviours of the code a reader might not expect:

- `getRequestParameters` (VertxWebContext.java:108-110) returns the context's
  own map and arrays, not a copy or a read-only view. The model returns the
  same arrays, so a caller that writes into one changes what later calls see
  (`ParametersAgree` then no longer holds).
- `setSessionAttribute` (VertxWebContext.java:129) with a `null` value stores
  the `null` under the key rather than removing it. A later
  `getSessionAttribute` returns `null` whether the key holds a `null` or was
  never set.

## Model

| member | source | states |
|---|---|---|
| `Capture.Captured` | src/main/java/org/pac4j/vertx/VertxWebContext.java:74-82 | the map the capture loops build holds exactly the names that some entry carries |
| `Capture.CapturedLookup` | src/main/java/org/pac4j/vertx/VertxWebContext.java:74-82 | after the capture loop a name is in the map exactly when some entry of the enumeration carries it, and its value is that of the last such entry |
| `Capture.CaptureEntries` | src/main/java/org/pac4j/vertx/VertxWebContext.java:74-82 | the loop that puts each (name, value) entry in order into an empty JSON object yields the captured map |
| `Vertx.ServerPort` | src/main/java/org/pac4j/vertx/VertxWebContext.java:71 | the port is the URI's explicit port when it has one (not -1); otherwise 80 exactly when the scheme is "http" and 443 for every other scheme; the result is never -1 |
| `Vertx.AppendedText` | src/main/java/org/pac4j/vertx/VertxWebContext.java:159 | appending a string adds its text, and appending a null string adds the four characters "null" |
| `Vertx.VertxWebContext.constructor` | src/main/java/org/pac4j/vertx/VertxWebContext.java:56-96 | a context built from a parsed URI holds the request's method, URL and remote address, the URI's scheme and host, the defaulted port, the captured headers and parameters, fresh parameter arrays that agree with the parameters, and an empty response (status 0) |
| `Vertx.VertxWebContext.Create` | src/main/java/org/pac4j/vertx/VertxWebContext.java:61-68 | construction fails with InvalidParameter exactly when the URI does not parse; otherwise a fresh context built as the constructor says, its parameter arrays fresh too |
| `Vertx.VertxWebContext.CopyToArrays` | src/main/java/org/pac4j/vertx/VertxWebContext.java:84-93 | the array map has exactly the parameter names; each name gets its own fresh array with the same values in the same order |
| `Vertx.VertxWebContext.GetRequestParameter` | src/main/java/org/pac4j/vertx/VertxWebContext.java:99-105 | a value is returned exactly when the name is known and has at least one value, and it is the first value; otherwise null (tied to the request by RequestParameterIsFirstListed and to getRequestParameters by RequestParametersMatchParameter) |
| `Vertx.VertxWebContext.RequestParameterIsFirstListed` | src/main/java/org/pac4j/vertx/VertxWebContext.java:79-105 | a parameter has a value exactly when the request listed the name with a non-empty value list, and the value heads the list listed last for the name |
| `Vertx.VertxWebContext.RequestParametersMatchParameter` | src/main/java/org/pac4j/vertx/VertxWebContext.java:107-110 | the map getRequestParameters returns has the snapshot's names, each with the same values in order; element 0 of a non-empty array is getRequestParameter's answer, and an unknown name is absent from the map and gives null |
| `Vertx.VertxWebContext.RequestHeaderIsLastListed` | src/main/java/org/pac4j/vertx/VertxWebContext.java:122-125 | getRequestHeader finds a header exactly when the request listed its name, and returns the value listed last for that name |
| `Vertx.VertxWebContext.RequestAccessorsMatchRequest` | src/main/java/org/pac4j/vertx/VertxWebContext.java:147-155 | getRequestMethod and getRemoteAddr return the method and remote address the request gave; getFullRequestURL (lines 199-202) returns its absolute URI |
| `Vertx.VertxWebContext.ServerAccessorsMatchUri` | src/main/java/org/pac4j/vertx/VertxWebContext.java:184-202 | getScheme and getServerName return the parsed URI's scheme and host; getServerPort its explicit port, or 80 for "http" and 443 otherwise |
| `Vertx.VertxWebContext.SessionIsTheInjectedObject` | src/main/java/org/pac4j/vertx/VertxWebContext.java:143-145 | getSessionAttributes returns the session object the context was built with, not a copy |
| `Vertx.VertxWebContext.SetRequestAttribute` | src/main/java/org/pac4j/vertx/VertxWebContext.java:117-120 | only the routing context's data map changes, by putting the value (null included) under the name; getRequestAttribute then returns it |
| `Vertx.VertxWebContext.SetSessionAttribute` | src/main/java/org/pac4j/vertx/VertxWebContext.java:127-130 | only the session's attribute map changes: the key is present with the given value, null included, every other key reads as before, and the profile is untouched |
| `Vertx.VertxWebContext.InvalidateSession` | src/main/java/org/pac4j/vertx/VertxWebContext.java:137-141 | afterwards the profile slot is null and the attribute map is empty, whatever the state before, so every attribute reads null |
| `Vertx.VertxWebContext.WriteResponseContent` | src/main/java/org/pac4j/vertx/VertxWebContext.java:157-160 | only the body changes: it becomes the old body followed by the text, where a null text appends "null" |
| `Vertx.VertxWebContext.SetResponseStatus` | src/main/java/org/pac4j/vertx/VertxWebContext.java:166-169 | only the status changes, and getResponseStatus returns the code just set |
| `Vertx.VertxWebContext.SetResponseHeader` | src/main/java/org/pac4j/vertx/VertxWebContext.java:175-178 | only the response headers change: the name has exactly the given value and every other header is present with the same value or absent as before |
| `Scenarios.InvalidateSessionTwice` | src/main/java/org/pac4j/vertx/VertxWebContext.java:137-141 | invalidating twice leaves the same profile and attribute map as invalidating once |
| `Scenarios.ReadBackRequestAttribute` | src/main/java/org/pac4j/vertx/VertxWebContext.java:112-115 | getRequestAttribute returns the value just set for the name, null included |
| `Scenarios.ReadBackSessionAttribute` | src/main/java/org/pac4j/vertx/VertxWebContext.java:132-135 | getSessionAttribute returns the value stored for the key, null included, after writes to another key and to the response; the key stays present |
| `Scenarios.ReadBackResponseContent` | src/main/java/org/pac4j/vertx/VertxWebContext.java:162-164 | getResponseContent returns the old body followed by both written texts in call order; status and headers are unchanged |
| `Scenarios.ReadBackResponseStatus` | src/main/java/org/pac4j/vertx/VertxWebContext.java:171-173 | getResponseStatus returns the last status set, a body write in between notwithstanding |
| `Scenarios.ReadBackResponseHeaders` | src/main/java/org/pac4j/vertx/VertxWebContext.java:180-182 | getResponseHeaders, after a header is set twice, holds one entry for it with the second value and every other header as before; the body is unchanged |
| `Scenarios.RefusedConstruction` | src/main/java/org/pac4j/vertx/VertxWebContext.java:63-68 | a URI syntax error yields InvalidParameter and no context |

## Left out

- Parsing the absolute URI with `java.net.URI` is not modelled: the context receives the parse outcome (scheme, optional host, port with -1 for none, or a syntax error). The stack trace printed on failure and the exception's message are left out.
- The scheme is never null in the model. The code would throw a `NullPointerException` at the port default for a URI without a scheme and without a port; a server's absolute URI always has a scheme.
- How Vert.x enumerates header and parameter names, and which value `headers().get` picks for a repeated header, are not modelled: the request supplies one entry per name as the server lists it. The method's and the remote address's `toString` are given strings.
- JSON object and array representations and the `(String)` casts are replaced by `map<string, string>`, `map<string, seq<string>>` and `array<string>`.
- `Vertx.VertxWebContext.GetRequestParameters`: the Java map is itself mutable, so a caller could also add or remove names in it; the model's map is a value, so only writes into the arrays are shared.
- `Vertx.VertxWebContext.GetResponseHeaders`: returns the header map as a value; in the code it is the live JSON object, which a caller could change.
- Null names, and a null response-header value, are not modelled: names and header values are strings. Null session and request attribute values are modelled.
- The internals of `Pac4jSessionAttributes` beyond its attribute map and profile slot, and of `RoutingContext` beyond its request and data map, are not modelled.
- Concurrent use of one session object by several requests is not modelled; the code has no synchronisation for it.
- The response is never sent to the network here; sending it belongs to the surrounding server.
