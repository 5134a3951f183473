/**
 * The pac4j web context for Vert.x: a snapshot of one request taken at
 * construction, pass-through access to request and session attributes, and an
 * in-memory response (status, headers, body) for the server to send later.
 */
module Vertx {
  import opened Wrappers
  import opened Collaborators
  import opened Capture

  /** Java's `int`. */
  newtype int32 = x: int | -0x8000_0000 <= x < 0x8000_0000

  /** Construction refused: the request's absolute URI did not parse. */
  datatype ConstructionError = InvalidParameter

  /**
   * The server port of a request: the URI's own port when it gives one (-1 stands
   * for none), otherwise 80 for the scheme "http" exactly and 443 for any other.
   */
  function ServerPort(scheme: string, uriPort: int): (port: int)
    ensures uriPort != -1 ==> port == uriPort
    ensures uriPort == -1 ==> (port == 80 <==> scheme == "http")
    ensures uriPort == -1 ==> (port == 443 <==> scheme != "http")
    ensures port != -1
  {
    if uriPort != -1 then uriPort else if scheme == "http" then 80 else 443
  }

  /** The text `StringBuilder.append(String)` adds: a `null` string appends "null". */
  function AppendedText(content: Option<string>): (text: string)
    ensures content.Some? ==> text == content.value
    ensures content.None? ==> text == "null"
  {
    match content
    case Some(s) => s
    case None => "null"
  }

  /** Two names never share an array. */
  ghost predicate DistinctArrays(mp: map<string, array<string>>)
  {
    forall n, n' :: n in mp && n' in mp && n != n' ==> mp[n] != mp[n']
  }

  class VertxWebContext {
    const sessionAttributes: Pac4jSessionAttributes
    const routingContext: RoutingContext
    const requestMethod: string
    const serverName: Option<string>
    const serverPort: int
    const fullUrl: string
    const scheme: string
    const remoteAddress: string
    /** Header name to its single captured value. */
    const headers: map<string, string>
    /** Parameter name to all its values, in order. */
    const parameters: map<string, seq<string>>
    /** The same parameters as one array per name, handed out by GetRequestParameters. */
    const mapParameters: map<string, array<string>>

    /** The response headers staged so far. */
    var outHeaders: map<string, string>
    /** The response body written so far (the string builder's contents). */
    var body: string
    /** The response status; 0 until it is set. */
    var code: int32

    /** The snapshot fields are what the constructor read from `request`. */
    ghost predicate SnapshotOf(request: HttpServerRequest)
    {
      && requestMethod == request.httpMethod
      && fullUrl == request.absoluteUri
      && remoteAddress == request.remoteAddress
      && headers == Captured(request.headers)
      && parameters == Captured(request.params)
    }

    /** The array map holds exactly the parameter names, each with the same values in order. */
    ghost predicate ParametersAgree()
      reads mapParameters.Values
    {
      && mapParameters.Keys == parameters.Keys
      && forall n :: n in mapParameters ==> mapParameters[n][..] == parameters[n]
    }

    /** Nothing has been staged in the response yet. */
    ghost predicate ResponseEmpty()
      reads this
    {
      body == [] && code == 0 && outHeaders == map[]
    }

    /** The context was built from these collaborators and this parsed URI. */
    ghost predicate BuiltFrom(rc: RoutingContext, session: Pac4jSessionAttributes, uri: UriParse)
      reads mapParameters.Values
    {
      && routingContext == rc
      && sessionAttributes == session
      && SnapshotOf(rc.request)
      && uri.Parsed?
      && scheme == uri.scheme
      && serverName == uri.host
      && serverPort == ServerPort(uri.scheme, uri.port)
      && ParametersAgree()
      && DistinctArrays(mapParameters)
    }

    /**
     * Construction proper, once the URI has parsed: read the request line, capture
     * headers and parameters, copy the parameters into arrays.
     */
    constructor (routingContext: RoutingContext, sessionAttributes: Pac4jSessionAttributes, uri: UriParse)
      requires uri.Parsed?
      ensures BuiltFrom(routingContext, sessionAttributes, uri)
      ensures forall n :: n in mapParameters ==> fresh(mapParameters[n])
      ensures ResponseEmpty()
    {
      var request := routingContext.request;
      this.routingContext := routingContext;
      requestMethod := request.httpMethod;
      fullUrl := request.absoluteUri;
      scheme := uri.scheme;
      serverName := uri.host;
      serverPort := ServerPort(uri.scheme, uri.port);
      remoteAddress := request.remoteAddress;
      var capturedHeaders := CaptureEntries(request.headers);
      headers := capturedHeaders;
      var capturedParameters := CaptureEntries(request.params);
      parameters := capturedParameters;
      var arrays := CopyToArrays(capturedParameters);
      mapParameters := arrays;
      this.sessionAttributes := sessionAttributes;
      outHeaders := map[];
      body := [];
      code := 0;
    }

    /**
     * Building a context: a URI that does not parse refuses construction with
     * InvalidParameter; otherwise the context is built as the constructor says.
     */
    static method Create(routingContext: RoutingContext, sessionAttributes: Pac4jSessionAttributes, uri: UriParse)
      returns (r: Result<VertxWebContext, ConstructionError>)
      ensures r.Failure? <==> uri.SyntaxError?
      ensures r.Failure? ==> r.error == InvalidParameter
      ensures r.Success? ==> fresh(r.value) && r.value.ResponseEmpty()
      ensures r.Success? ==> forall n :: n in r.value.mapParameters ==> fresh(r.value.mapParameters[n])
      ensures r.Success? ==> r.value.BuiltFrom(routingContext, sessionAttributes, uri)
    {
      if uri.SyntaxError? {
        return Failure(InvalidParameter);
      }
      var context := new VertxWebContext(routingContext, sessionAttributes, uri);
      r := Success(context);
    }

    /** The parameter-array copy: a fresh array per name, filled in order. */
    static method CopyToArrays(parameters: map<string, seq<string>>) returns (mp: map<string, array<string>>)
      ensures mp.Keys == parameters.Keys
      ensures forall n :: n in mp ==> fresh(mp[n]) && mp[n][..] == parameters[n]
      ensures DistinctArrays(mp)
    {
      mp := map[];
      var remaining := parameters.Keys;
      while remaining != {}
        invariant remaining <= parameters.Keys
        invariant mp.Keys == parameters.Keys - remaining
        invariant forall n :: n in mp ==> fresh(mp[n]) && mp[n][..] == parameters[n]
        invariant DistinctArrays(mp)
        decreases remaining
      {
        var name :| name in remaining;
        var params := parameters[name];
        var values := new string[|params|];
        var i := 0;
        while i < |params|
          invariant 0 <= i <= |params|
          invariant values[..i] == params[..i]
          modifies values
        {
          values[i] := params[i];
          i := i + 1;
        }
        mp := mp[name := values];
        remaining := remaining - {name};
      }
    }

    /** The first value of a parameter; `None` when the name is unknown or has no value. */
    function GetRequestParameter(name: string): (r: Option<string>)
      ensures r.Some? <==> name in parameters && |parameters[name]| > 0
      ensures r.Some? ==> r.value == parameters[name][0]
    {
      if name in parameters && |parameters[name]| > 0 then Some(parameters[name][0]) else None
    }

    /** The parameter arrays themselves (not a copy). */
    function GetRequestParameters(): (r: map<string, array<string>>)
    {
      mapParameters
    }

    function GetRequestHeader(name: string): (r: Option<string>)
    {
      if name in headers then Some(headers[name]) else None
    }

    function GetRequestMethod(): (r: string) { requestMethod }
    function GetRemoteAddr(): (r: string) { remoteAddress }
    function GetServerName(): (r: Option<string>) { serverName }
    function GetServerPort(): (r: int) { serverPort }
    function GetScheme(): (r: string) { scheme }
    function GetFullRequestURL(): (r: string) { fullUrl }

    /** A request attribute, read through to the routing context's data; `None` when unset or null. */
    function GetRequestAttribute(name: string): (r: Option<Object>)
      reads routingContext
    {
      if name in routingContext.data then routingContext.data[name] else None
    }

    method SetRequestAttribute(name: string, value: Option<Object>)
      modifies routingContext`data
      ensures routingContext.data == old(routingContext.data)[name := value]
      ensures GetRequestAttribute(name) == value
    {
      routingContext.data := routingContext.data[name := value];
    }

    /** A session attribute; `None` when unset or stored as null. */
    function GetSessionAttribute(name: string): (r: Option<Object>)
      reads sessionAttributes
    {
      if name in sessionAttributes.customAttributes then sessionAttributes.customAttributes[name] else None
    }

    /** Stores `value` under `name`, a null value included (the key stays present). */
    method SetSessionAttribute(name: string, value: Option<Object>)
      modifies sessionAttributes`customAttributes
      ensures sessionAttributes.customAttributes == old(sessionAttributes.customAttributes)[name := value]
      ensures name in sessionAttributes.customAttributes
      ensures GetSessionAttribute(name) == value
      ensures forall k :: k != name ==> GetSessionAttribute(k) == old(GetSessionAttribute(k))
    {
      sessionAttributes.customAttributes := sessionAttributes.customAttributes[name := value];
    }

    /** Empties the profile slot and the attribute map; the result does not depend on the old state. */
    method InvalidateSession()
      modifies sessionAttributes
      ensures sessionAttributes.userProfile == None
      ensures sessionAttributes.customAttributes == map[]
      ensures forall k :: GetSessionAttribute(k) == None
    {
      sessionAttributes.userProfile := None;
      sessionAttributes.customAttributes := map[];
    }

    function GetSessionAttributes(): (r: Pac4jSessionAttributes) { sessionAttributes }

    /** Appends to the response body. */
    method WriteResponseContent(content: Option<string>)
      modifies this`body
      ensures body == old(body) + AppendedText(content)
    {
      body := body + AppendedText(content);
    }

    function GetResponseContent(): (r: string)
      reads this`body
    {
      body
    }

    /** Overwrites the response status. */
    method SetResponseStatus(code: int32)
      modifies this`code
      ensures GetResponseStatus() == code
    {
      this.code := code;
    }

    function GetResponseStatus(): (r: int32)
      reads this`code
    {
      code
    }

    /** Sets the one value of a response header, leaving every other header as it was. */
    method SetResponseHeader(name: string, value: string)
      modifies this`outHeaders
      ensures outHeaders == old(outHeaders)[name := value]
      ensures name in outHeaders && outHeaders[name] == value
      ensures forall k :: k != name ==> (k in outHeaders <==> k in old(outHeaders))
      ensures forall k :: k != name && k in outHeaders ==> outHeaders[k] == old(outHeaders)[k]
    {
      outHeaders := outHeaders[name := value];
    }

    function GetResponseHeaders(): (r: map<string, string>)
      reads this`outHeaders
    {
      outHeaders
    }

    /**
     * A header is captured exactly when the request listed it, and its value is the
     * one listed last for that name.
     */
    lemma RequestHeaderIsLastListed(name: string)
      requires SnapshotOf(routingContext.request)
      ensures GetRequestHeader(name).Some? <==>
                exists i :: 0 <= i < |routingContext.request.headers| && routingContext.request.headers[i].0 == name
      ensures GetRequestHeader(name).Some? ==>
                exists i :: LastWith(routingContext.request.headers, name, i)
                         && GetRequestHeader(name).value == routingContext.request.headers[i].1
    {
      CapturedLookup(routingContext.request.headers, name);
    }

    /**
     * A parameter has a first value exactly when the request listed the name with a
     * non-empty list of values, and that value heads the list listed last for the name.
     */
    lemma RequestParameterIsFirstListed(name: string)
      requires SnapshotOf(routingContext.request)
      ensures GetRequestParameter(name).Some? <==>
                exists i :: LastWith(routingContext.request.params, name, i) && |routingContext.request.params[i].1| > 0
      ensures GetRequestParameter(name).Some? ==>
                exists i :: LastWith(routingContext.request.params, name, i)
                         && GetRequestParameter(name).value == routingContext.request.params[i].1[0]
    {
      var ps := routingContext.request.params;
      CapturedLookup(ps, name);
      if exists i :: LastWith(ps, name, i) && |ps[i].1| > 0 {
        var i :| LastWith(ps, name, i) && |ps[i].1| > 0;
        assert name in parameters;
        var j :| LastWith(ps, name, j) && parameters[name] == ps[j].1;
        assert i == j;
      }
    }

    /**
     * The array map handed out has the parameter names and values of the snapshot, so
     * a name's first array element is its request parameter, and an unknown name is
     * absent from both.
     */
    lemma RequestParametersMatchParameter(name: string)
      requires ParametersAgree()
      ensures name in GetRequestParameters() <==> name in parameters
      ensures name in GetRequestParameters() ==> GetRequestParameters()[name][..] == parameters[name]
      ensures name in GetRequestParameters() && GetRequestParameters()[name].Length > 0 ==>
                GetRequestParameter(name) == Some(GetRequestParameters()[name][0])
      ensures name !in GetRequestParameters() ==> GetRequestParameter(name) == None
    {
    }

    /** The method, remote address and URL accessors return what the request gave. */
    lemma RequestAccessorsMatchRequest()
      requires SnapshotOf(routingContext.request)
      ensures GetRequestMethod() == routingContext.request.httpMethod
      ensures GetRemoteAddr() == routingContext.request.remoteAddress
      ensures GetFullRequestURL() == routingContext.request.absoluteUri
    {
    }

    /**
     * The server accessors return the parsed URI's scheme and host, and its port
     * defaulted by scheme when the URI has none.
     */
    lemma ServerAccessorsMatchUri(uri: UriParse)
      requires BuiltFrom(routingContext, sessionAttributes, uri)
      ensures GetScheme() == uri.scheme
      ensures GetServerName() == uri.host
      ensures uri.port != -1 ==> GetServerPort() == uri.port
      ensures uri.port == -1 ==> GetServerPort() == if uri.scheme == "http" then 80 else 443
    {
    }

    /** The session handed out is the very object the context was built with, not a copy. */
    lemma SessionIsTheInjectedObject(rc: RoutingContext, session: Pac4jSessionAttributes, uri: UriParse)
      requires BuiltFrom(rc, session, uri)
      ensures GetSessionAttributes() == session
    {
    }
  }
}
