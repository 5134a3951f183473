/**
 * The objects the web context is built from and talks to. Their own logic is
 * not part of the model: only the state the context reads or updates is kept.
 */
module Collaborators {
  import opened Wrappers

  /** A Java `Object` stored as a session or request attribute (never inspected). */
  type Object(==)

  /** pac4j's authenticated user profile (never inspected). */
  type UserProfile

  /**
   * The session state shared by every request of one session. It is created and
   * owned elsewhere; the context only holds a reference to it.
   */
  class Pac4jSessionAttributes {
    /** The custom-attributes map; a value of `None` is a stored Java `null`. */
    var customAttributes: map<string, Option<Object>>
    /** The user-profile slot; `None` is Java `null`. */
    var userProfile: Option<UserProfile>

    constructor (attributes: map<string, Option<Object>>, profile: Option<UserProfile>)
      ensures customAttributes == attributes && userProfile == profile
    {
      customAttributes := attributes;
      userProfile := profile;
    }
  }

  /**
   * An inbound request as the context reads it once, at construction. The header
   * and parameter enumerations of the server are given as sequences of entries, one
   * per name as the server lists them: the header's value, or all values of the
   * parameter in order.
   */
  datatype HttpServerRequest = HttpServerRequest(
    httpMethod: string,
    absoluteUri: string,
    remoteAddress: string,
    headers: seq<(string, string)>,
    params: seq<(string, seq<string>)>)

  /**
   * The result of parsing the absolute URI: a scheme, a host that may be absent
   * (`None`) and a port that is -1 when the URI gives none; or a syntax error.
   */
  datatype UriParse =
    | Parsed(scheme: string, host: Option<string>, port: int)
    | SyntaxError

  /**
   * The routing context of one request: the request itself and the per-request
   * data store that request attributes pass through to.
   */
  class RoutingContext {
    const request: HttpServerRequest
    /** The per-request data map; a value of `None` is a stored Java `null`. */
    var data: map<string, Option<Object>>

    constructor (request: HttpServerRequest)
      ensures this.request == request && data == map[]
    {
      this.request := request;
      data := map[];
    }
  }
}
