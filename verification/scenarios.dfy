/**
 * Call sequences a consumer of the context performs, checked against the
 * contracts alone (the way a client of the class sees them).
 */
module Scenarios {
  import opened Wrappers
  import opened Collaborators
  import opened Vertx

  /** Two invalidations leave the session exactly as one does. */
  method InvalidateSessionTwice(context: VertxWebContext)
    modifies context.sessionAttributes
    ensures context.sessionAttributes.userProfile == None
    ensures context.sessionAttributes.customAttributes == map[]
  {
    context.InvalidateSession();
    var profileOnce := context.sessionAttributes.userProfile;
    var attributesOnce := context.sessionAttributes.customAttributes;
    context.InvalidateSession();
    assert context.sessionAttributes.userProfile == profileOnce;
    assert context.sessionAttributes.customAttributes == attributesOnce;
  }

  /**
   * A stored session attribute, null included, reads back after writes to another
   * key and to the response.
   */
  method ReadBackSessionAttribute(context: VertxWebContext, key: string, value: Option<Object>,
                                  other: string, otherValue: Option<Object>)
    returns (read: Option<Object>)
    requires other != key
    modifies context, context.sessionAttributes
    ensures read == value
    ensures key in context.sessionAttributes.customAttributes
  {
    context.SetSessionAttribute(key, value);
    context.SetSessionAttribute(other, otherValue);
    context.WriteResponseContent(Some("x"));
    context.SetResponseStatus(302);
    read := context.GetSessionAttribute(key);
  }

  /** A request attribute, null included, reads back from the routing context's store. */
  method ReadBackRequestAttribute(context: VertxWebContext, key: string, value: Option<Object>)
    returns (read: Option<Object>)
    modifies context.routingContext
    ensures read == value
    ensures context.routingContext.data == old(context.routingContext.data)[key := value]
  {
    context.SetRequestAttribute(key, value);
    read := context.GetRequestAttribute(key);
  }

  /** Two writes read back as the old body followed by both texts, in call order. */
  method ReadBackResponseContent(context: VertxWebContext, first: Option<string>, second: Option<string>)
    returns (read: string)
    modifies context
    ensures read == old(context.GetResponseContent()) + AppendedText(first) + AppendedText(second)
    ensures context.GetResponseStatus() == old(context.GetResponseStatus())
    ensures context.GetResponseHeaders() == old(context.GetResponseHeaders())
  {
    context.WriteResponseContent(first);
    context.WriteResponseContent(second);
    read := context.GetResponseContent();
  }

  /** Two status writes, with a body write between them, read back as the second. */
  method ReadBackResponseStatus(context: VertxWebContext, first: int32, second: int32)
    returns (read: int32)
    modifies context
    ensures read == second
    ensures context.GetResponseContent() == old(context.GetResponseContent()) + "a"
  {
    context.SetResponseStatus(first);
    context.WriteResponseContent(Some("a"));
    context.SetResponseStatus(second);
    read := context.GetResponseStatus();
  }

  /**
   * A header set twice reads back as one entry with the second value; every other
   * header keeps its presence and its value.
   */
  method ReadBackResponseHeaders(context: VertxWebContext, name: string, first: string, second: string)
    returns (read: map<string, string>)
    modifies context
    ensures name in read && read[name] == second
    ensures forall k :: k != name ==> (k in read <==> k in old(context.GetResponseHeaders()))
    ensures forall k :: k != name && k in read ==> read[k] == old(context.GetResponseHeaders())[k]
    ensures context.GetResponseContent() == old(context.GetResponseContent())
  {
    context.SetResponseHeader(name, first);
    context.SetResponseHeader(name, second);
    read := context.GetResponseHeaders();
  }

  /** A URI that does not parse yields no context at all. */
  method RefusedConstruction(routingContext: RoutingContext, session: Pac4jSessionAttributes)
    returns (r: Result<VertxWebContext, ConstructionError>)
    ensures r == Failure(InvalidParameter)
  {
    r := VertxWebContext.Create(routingContext, session, SyntaxError);
  }
}
