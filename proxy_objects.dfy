// The state of a Proxy exotic object and of the function that can revoke
// it (ProxyObject.h): two non-owning references that are overwritten in
// place, and one back-reference.

module ProxyObjects {
  import opened JsValues

  class ProxyObject {
    /** [[ProxyTarget]]; `None` once revoked (and before the constructor sets it). */
    var target: Option<ObjectId>
    /** [[ProxyHandler]]; `None` once revoked. */
    var handler: Option<ObjectId>

    /** A new proxy has neither target nor handler until they are set. */
    constructor ()
      ensures target == None && handler == None
    {
      target := None;
      handler := None;
    }

    /** A proxy is a proxy exotic object. */
    function IsProxyObject(): (r: bool)
      ensures r
    {
      true
    }

    /** A proxy is not an ordinary object. */
    function IsOrdinary(): (r: bool)
      ensures !r
    {
      false
    }

    /** Property look-ups on a proxy are never inline-cached. */
    function IsInlineCacheable(): (r: bool)
      ensures !r
    {
      false
    }

    /** The target reads back as `t`, and the handler is unchanged. */
    method SetTarget(t: Option<ObjectId>)
      modifies this
      ensures target == t && handler == old(handler)
    {
      target := t;
    }

    /** The handler reads back as `h`, and the target is unchanged. */
    method SetHandler(h: Option<ObjectId>)
      modifies this
      ensures handler == h && target == old(target)
    {
      handler := h;
    }
  }

  class RevocableFunctionObject {
    /** [[RevocableProxy]]: the proxy this function revokes, `null` once used. */
    var revocable: ProxyObject?

    constructor (revocable: ProxyObject?)
      ensures this.revocable == revocable
    {
      this.revocable := revocable;
    }

    /** A revocable function is marked as such. */
    function IsRevocableFunctionObject(): (r: bool)
      ensures r
    {
      true
    }

    /** The back-reference reads back as `o`. */
    method SetRevocable(o: ProxyObject?)
      modifies this
      ensures revocable == o
    {
      revocable := o;
    }
  }
}
