// The Proxy builtins of GlobalObjectBuiltinProxy.cpp: the Proxy
// constructor (ProxyCreate), the revocation function and
// Proxy.revocable.  Objects that are proxies are reachable through the
// map `proxies`; every other object id is an ordinary object.

module ProxyBuiltins {
  import opened JsValues
  import opened ProxyObjects

  /**
   * Argument `i` of a builtin call.  The engine hands a builtin at least
   * as many argument slots as its declared length, missing ones holding
   * undefined, so `argv[0]` and `argv[1]` are always readable.
   */
  function Arg(argv: seq<Value>, i: nat): Value
  {
    if i < |argv| then argv[i] else Undefined
  }

  /** Why the Proxy constructor rejects its arguments; every reason is thrown as a TypeError. */
  datatype Rejection = CalledWithoutNew | TargetNotObject | TargetRevoked | HandlerNotObject | HandlerRevoked

  datatype Checked = Accepted(target: ObjectId, handler: ObjectId) | Rejected(why: Rejection)

  /**
   * The guards of builtinProxyConstructor, in their order: `new`, the
   * target (an object, not a proxy whose handler is null), then the
   * handler (likewise).  `revoked` holds the proxies whose handler is null.
   */
  function ConstructorCheck(isNew: bool, argv: seq<Value>, revoked: set<ObjectId>): (r: Checked)
    ensures r.Accepted? <==>
      isNew && Arg(argv, 0).Obj? && Arg(argv, 0).ref !in revoked && Arg(argv, 1).Obj? && Arg(argv, 1).ref !in revoked
    ensures r.Accepted? ==> r.target == Arg(argv, 0).ref && r.handler == Arg(argv, 1).ref
    ensures !isNew ==> r == Rejected(CalledWithoutNew)
  {
    var target := Arg(argv, 0);
    var handler := Arg(argv, 1);
    if !isNew then Rejected(CalledWithoutNew)
    else if !target.Obj? then Rejected(TargetNotObject)
    else if target.ref in revoked then Rejected(TargetRevoked)
    else if !handler.Obj? then Rejected(HandlerNotObject)
    else if handler.ref in revoked then Rejected(HandlerRevoked)
    else Accepted(target.ref, handler.ref)
  }

  /** A bad target is reported whatever the handler is: the target guards come first. */
  lemma {:induction false} TargetCheckedBeforeHandler(argv: seq<Value>, revoked: set<ObjectId>, handler: Value)
    requires !Arg(argv, 0).Obj? || Arg(argv, 0).ref in revoked
    ensures var argv' := [Arg(argv, 0), handler];
      ConstructorCheck(true, argv, revoked) == ConstructorCheck(true, argv', revoked) &&
      ConstructorCheck(true, argv, revoked).why in {TargetNotObject, TargetRevoked}
  {
  }

  /** The proxies among `proxies` that have been revoked (their handler is null). */
  function RevokedIn(proxies: map<ObjectId, ProxyObject>): set<ObjectId>
    reads proxies.Values
  {
    set id | id in proxies && proxies[id].handler == None
  }

  /** builtinProxyConstructor: ProxyCreate(argv[0], argv[1]). */
  method Construct(isNew: bool, argv: seq<Value>, proxies: map<ObjectId, ProxyObject>) returns (r: Completion<ProxyObject>)
    ensures r.Throw? <==> ConstructorCheck(isNew, argv, RevokedIn(proxies)).Rejected?
    ensures r.Throw? ==> r.error == TypeError
    ensures r.Normal? ==>
      fresh(r.value) && r.value.target == Some(Arg(argv, 0).ref) && r.value.handler == Some(Arg(argv, 1).ref)
  {
    if !isNew {
      return Throw(TypeError);
    }
    var target := Arg(argv, 0);
    var handler := Arg(argv, 1);
    if !target.Obj? {
      return Throw(TypeError);
    }
    if target.ref in proxies {
      var exotic := proxies[target.ref];
      if exotic.handler == None {
        return Throw(TypeError);
      }
    }
    if !handler.Obj? {
      return Throw(TypeError);
    }
    if handler.ref in proxies {
      var exotic := proxies[handler.ref];
      if exotic.handler == None {
        return Throw(TypeError);
      }
    }
    var p := new ProxyObject();
    p.SetTarget(Some(target.ref));
    p.SetHandler(Some(handler.ref));
    return Normal(p);
  }

  /**
   * builtinProxyRevoke for the revocation function `f`: the first call
   * clears `f`'s back-reference, then the proxy's target and handler;
   * once the back-reference is null a call changes nothing.
   */
  method Revoke(isNew: bool, f: RevocableFunctionObject) returns (r: Completion<Value>)
    modifies f, if f.revocable != null then {f.revocable} else {}
    ensures isNew ==> r == Throw(TypeError) && f.revocable == old(f.revocable)
    ensures isNew && old(f.revocable) != null ==> unchanged(old(f.revocable))
    ensures !isNew ==> r == Normal(Undefined) && f.revocable == null
    ensures !isNew && old(f.revocable) != null ==> old(f.revocable).target == None && old(f.revocable).handler == None
  {
    if isNew {
      return Throw(TypeError);
    }
    var p := f.revocable;
    if p == null {
      return Normal(Undefined);
    }
    f.SetRevocable(null);
    p.SetTarget(None);
    p.SetHandler(None);
    return Normal(Undefined);
  }

  /** Two calls of a revocation function leave the state the first call left, and both return undefined. */
  method RevokeTwice(f: RevocableFunctionObject) returns (first: Completion<Value>, second: Completion<Value>)
    modifies f, if f.revocable != null then {f.revocable} else {}
    ensures first == second == Normal(Undefined) && f.revocable == null
    ensures old(f.revocable) != null ==> old(f.revocable).target == None && old(f.revocable).handler == None
  {
    first := Revoke(false, f);
    second := Revoke(false, f);
  }

  /** The attributes of a data property. */
  datatype Attributes = Attributes(writable: bool, enumerable: bool, configurable: bool)

  /** The attributes builtinProxyRevocable gives `proxy` and `revoke`: writable and configurable only. */
  function RevocablePropertyAttributes(): (r: Attributes)
    ensures r.writable && r.configurable && !r.enumerable
  {
    Attributes(true, false, true)
  }

  /** CreateDataProperty (section 7.3.4) makes a writable, enumerable, configurable property. */
  function CreateDataPropertyAttributes(): (r: Attributes)
    ensures r.writable && r.enumerable && r.configurable
  {
    Attributes(true, true, true)
  }

  datatype PropertyValue = ProxyValue(proxy: ProxyObject) | RevokerValue(revoker: RevocableFunctionObject)

  /** The keys an enumeration of own properties lists: those whose property is enumerable. */
  function EnumerableKeys(properties: map<string, (PropertyValue, Attributes)>): (r: set<string>)
    ensures r <= properties.Keys
    ensures forall k :: k in properties ==> (k in r <==> properties[k].1.enumerable)
  {
    set k | k in properties && properties[k].1.enumerable
  }

  /**
   * The properties of the result object are not enumerable, unlike those
   * CreateDataProperty makes: enumerating the result lists no key.
   */
  lemma {:induction false} RevocablePropertiesNotEnumerable(p: PropertyValue, f: PropertyValue)
    ensures RevocablePropertyAttributes() != CreateDataPropertyAttributes()
    ensures EnumerableKeys(map["proxy" := (p, RevocablePropertyAttributes()), "revoke" := (f, RevocablePropertyAttributes())]) == {}
  {
    assert !RevocablePropertyAttributes().enumerable;
  }

  /** With CreateDataProperty's attributes, as steps 3-4 of section 26.2.2.1 make them, both keys are listed. */
  lemma {:induction false} CreateDataPropertyKeysListed(p: PropertyValue, f: PropertyValue)
    ensures EnumerableKeys(map["proxy" := (p, CreateDataPropertyAttributes()), "revoke" := (f, CreateDataPropertyAttributes())]) ==
      {"proxy", "revoke"}
  {
    var m := map["proxy" := (p, CreateDataPropertyAttributes()), "revoke" := (f, CreateDataPropertyAttributes())];
    assert "proxy" in EnumerableKeys(m) && "revoke" in EnumerableKeys(m);
  }

  /** The result of Proxy.revocable: an ordinary object with the object prototype and two data properties. */
  class ResultObject {
    var hasObjectPrototype: bool
    var properties: map<string, (PropertyValue, Attributes)>

    constructor ()
      ensures !hasObjectPrototype && properties == map[]
    {
      hasObjectPrototype := false;
      properties := map[];
    }

    /** defineOwnPropertyThrowsException of a fresh key on this object. */
    method DefineProperty(key: string, v: PropertyValue, attributes: Attributes)
      modifies this
      ensures properties == old(properties)[key := (v, attributes)] && hasObjectPrototype == old(hasObjectPrototype)
    {
      properties := properties[key := (v, attributes)];
    }

    method SetObjectPrototype()
      modifies this
      ensures hasObjectPrototype && properties == old(properties)
    {
      hasObjectPrototype := true;
    }
  }

  /**
   * builtinProxyRevocable: ProxyCreate as the constructor does it, then
   * an object holding the proxy as `proxy` and, as `revoke`, a new
   * revocation function whose back-reference is that same proxy.
   */
  method Revocable(isNew: bool, argv: seq<Value>, proxies: map<ObjectId, ProxyObject>) returns (r: Completion<ResultObject>)
    ensures isNew ==> r == Throw(TypeError)
    ensures !isNew ==> (r.Throw? <==> ConstructorCheck(true, argv, RevokedIn(proxies)).Rejected?)
    ensures r.Throw? ==> r.error == TypeError
    ensures r.Normal? ==>
      var o := r.value;
      fresh(o) && o.hasObjectPrototype && o.properties.Keys == {"proxy", "revoke"} &&
      o.properties["proxy"].0.ProxyValue? && o.properties["revoke"].0.RevokerValue? &&
      o.properties["proxy"].1 == RevocablePropertyAttributes() &&
      o.properties["revoke"].1 == RevocablePropertyAttributes() &&
      var p := o.properties["proxy"].0.proxy;
      var f := o.properties["revoke"].0.revoker;
      fresh(p) && fresh(f) && f.revocable == p &&
      p.target == Some(Arg(argv, 0).ref) && p.handler == Some(Arg(argv, 1).ref)
  {
    if isNew {
      return Throw(TypeError);
    }
    var created := Construct(true, argv, proxies);
    if created.Throw? {
      return Throw(created.error);
    }
    var p := created.value;
    var result := new ResultObject();
    result.SetObjectPrototype();
    result.DefineProperty("proxy", ProxyValue(p), RevocablePropertyAttributes());
    var revoker := new RevocableFunctionObject(p);
    result.DefineProperty("revoke", RevokerValue(revoker), RevocablePropertyAttributes());
    return Normal(result);
  }
}
