// Trap dispatch of a Proxy exotic object as ProxyObject.cpp performs it:
// [[GetPrototypeOf]], [[Get]], [[Set]], getPrototypeObject and
// enumeration.  Each is a decision over the handler's trap slot, the
// trap's result and the target's state, returning a completion.  The
// target's own operations and the traps themselves are inputs.

module ProxyDispatch {
  import opened JsValues

  /**
   * A trap slot of the handler: no such property, a property holding
   * `undefined`, a property holding a value that is neither `undefined`
   * nor callable (`null` included), or a callable whose result, for the
   * arguments it is given, is `call(args)`.
   */
  datatype Trap =
    | Absent
    | UndefinedTrap
    | NonCallable(v: Value)
    | Callable(call: seq<Value> -> Value)

  /** The handler object and the three trap slots the dispatch reads. */
  datatype HandlerView = HandlerView(id: ObjectId, getPrototypeOfTrap: Trap, getTrap: Trap, setTrap: Trap)

  /**
   * An own property of the target.  `getter == None` means the accessor
   * has no getter; `Some(Undefined)` a getter slot holding undefined.
   */
  datatype Descriptor =
    | Data(value: Value, writable: bool, configurable: bool)
    | Accessor(getter: Option<Value>, setter: Option<Value>, configurable: bool)

  /**
   * The target as the dispatch sees it for one property key: its own
   * property (if any), what that property's getter completes with when
   * called on the target, whether the target is extensible, and what its
   * own [[GetPrototypeOf]], [[Get]] and [[Set]] complete with.
   */
  datatype TargetView = TargetView(
    id: ObjectId,
    own: Option<Descriptor>,
    getterResult: Completion<Value>,
    extensible: bool,
    prototype: Completion<Value>,
    getResult: Completion<Value>,
    setResult: Completion<bool>,
    keys: seq<Value>)

  /**
   * The getter test of ProxyObject.cpp (`!hasGetter() || getter().isUndefined()`).
   * It is applied without asking whether the descriptor is an accessor; a
   * data descriptor has no getter, so the test holds for it.
   */
  predicate GetterMissing(d: Descriptor)
  {
    match d
    case Data(_, _, _) => true
    case Accessor(g, _, _) => g == None || g == Some(Undefined)
  }

  /**
   * `targetDesc.value(state, target)`: a data property's value; for an
   * accessor, what its getter completes with when called on the target,
   * or `undefined` when it has none.
   */
  function OwnValue(d: Descriptor, getterResult: Completion<Value>): (r: Completion<Value>)
    ensures d.Data? ==> r == Normal(d.value)
    ensures d.Accessor? && GetterMissing(d) ==> r == Normal(Undefined)
    ensures r.Throw? ==> d.Accessor? && !GetterMissing(d) && r == getterResult
  {
    match d
    case Data(v, _, _) => Normal(v)
    case Accessor(g, _, _) => if g == None || g == Some(Undefined) then Normal(Undefined) else getterResult
  }

  predicate IsObjectOrNull(v: Value)
  {
    v.Obj? || v.Null?
  }

  /** ProxyObject::getPrototype. */
  function GetPrototype(handler: Option<HandlerView>, target: TargetView): (r: Completion<Value>)
    ensures handler == None ==> r == Throw(TypeError)
    ensures handler != None && (handler.value.getPrototypeOfTrap == Absent || handler.value.getPrototypeOfTrap == UndefinedTrap) ==>
      r == target.prototype
    ensures handler != None && handler.value.getPrototypeOfTrap.NonCallable? ==> r == Throw(TypeError)
    ensures handler != None && handler.value.getPrototypeOfTrap.Callable? ==>
      var handlerProto := handler.value.getPrototypeOfTrap.call([Obj(target.id)]);
      (r.Normal? ==> r.value == handlerProto && IsObjectOrNull(handlerProto)) &&
      (r.Normal? <==> IsObjectOrNull(handlerProto) && (target.extensible || target.prototype == Normal(handlerProto)))
  {
    match handler
    case None => Throw(TypeError)
    case Some(h) =>
      match h.getPrototypeOfTrap
      case Absent => target.prototype
      case UndefinedTrap => target.prototype
      case NonCallable(_) => Throw(TypeError)
      case Callable(call) =>
        var handlerProto := call([Obj(target.id)]);
        if !IsObjectOrNull(handlerProto) then Throw(TypeError)
        else if target.extensible then Normal(handlerProto)
        else
          match target.prototype
          case Throw(e) => Throw(e)
          case Normal(targetProto) =>
            if handlerProto != targetProto then Throw(TypeError) else Normal(handlerProto)
  }

  /**
   * ProxyObject::getPrototypeObject: no prototype object for a proxy
   * without target or when [[GetPrototypeOf]] yields a non-object.
   */
  function GetPrototypeObject(handler: Option<HandlerView>, target: Option<TargetView>): (r: Completion<Option<ObjectId>>)
    ensures target == None ==> r == Normal(None)
    ensures target != None ==>
      var proto := GetPrototype(handler, target.value);
      (r.Throw? <==> proto.Throw?) &&
      (r.Normal? ==> (r.value != None <==> proto.value.Obj?)) &&
      (r.Normal? && r.value != None ==> proto == Normal(Obj(r.value.value)))
  {
    match target
    case None => Normal(None)
    case Some(t) =>
      match GetPrototype(handler, t)
      case Throw(e) => Throw(e)
      case Normal(v) => if v.Obj? then Normal(Some(v.ref)) else Normal(None)
  }

  /**
   * The invariant checks of ProxyObject::get once the trap has produced
   * `trapResult`: a frozen data property must agree with it, and a
   * non-configurable property without getter forces `undefined`.
   */
  function GetChecked(own: Option<Descriptor>, trapResult: Value): (r: Completion<Value>)
    ensures r.Normal? ==> r.value == trapResult
    ensures r.Normal? <==>
      (own == None ||
       (!(own.value.Data? && !own.value.configurable && !own.value.writable && trapResult != own.value.value) &&
        !(!own.value.configurable && GetterMissing(own.value) && trapResult != Undefined)))
  {
    match own
    case None => Normal(trapResult)
    case Some(d) =>
      if d.Data? && !d.configurable && !d.writable && trapResult != d.value then Throw(TypeError)
      else if !d.configurable && GetterMissing(d) && trapResult != Undefined then Throw(TypeError)
      else Normal(trapResult)
  }

  /**
   * ProxyObject::get for key `p`.  The trap is called with the target,
   * the key and, in the receiver position, the handler.  Once the target
   * has an own property, its value is read before the checks, so a
   * throwing getter ends the call.
   */
  function Get(handler: Option<HandlerView>, target: TargetView, p: Value): (r: Completion<Value>)
    ensures handler == None ==> r == Throw(TypeError)
    ensures handler != None && (handler.value.getTrap == Absent || handler.value.getTrap == UndefinedTrap) ==>
      r == target.getResult
    ensures handler != None && handler.value.getTrap.NonCallable? ==> r == Throw(TypeError)
    ensures (handler != None && handler.value.getTrap.Callable? && target.own != None &&
             OwnValue(target.own.value, target.getterResult).Throw?) ==>
      r == target.getterResult
    ensures (handler != None && handler.value.getTrap.Callable? &&
             (target.own == None || OwnValue(target.own.value, target.getterResult).Normal?)) ==>
      r == GetChecked(target.own, handler.value.getTrap.call([Obj(target.id), p, Obj(handler.value.id)]))
  {
    match handler
    case None => Throw(TypeError)
    case Some(h) =>
      match h.getTrap
      case Absent => target.getResult
      case UndefinedTrap => target.getResult
      case NonCallable(_) => Throw(TypeError)
      case Callable(call) =>
        var trapResult := call([Obj(target.id), p, Obj(h.id)]);
        match target.own
        case None => Normal(trapResult)
        case Some(d) =>
          match OwnValue(d, target.getterResult)
          case Throw(e) => Throw(e)
          case Normal(_) => GetChecked(target.own, trapResult)
  }

  /**
   * The checks of ProxyObject::set once the trap has returned something
   * other than exactly `false`: a frozen data property must already hold
   * `v`, and a non-configurable property must have a getter.
   */
  function SetChecked(own: Option<Descriptor>, v: Value): (r: Completion<bool>)
    ensures r.Normal? ==> r.value
    ensures r.Normal? <==>
      (own == None ||
       (!(own.value.Data? && !own.value.configurable && !own.value.writable && v != own.value.value) &&
        !(!own.value.configurable && GetterMissing(own.value))))
  {
    match own
    case None => Normal(true)
    case Some(d) =>
      if d.Data? && !d.configurable && !d.writable && v != d.value then Throw(TypeError)
      else if !d.configurable && GetterMissing(d) then Throw(TypeError)
      else Normal(true)
  }

  /** ProxyObject::set of `v` at key `p` for `receiver`. */
  function Set(handler: Option<HandlerView>, target: TargetView, p: Value, v: Value, receiver: Value): (r: Completion<bool>)
    ensures handler == None ==> r == Throw(TypeError)
    ensures handler != None && (handler.value.setTrap == Absent || handler.value.setTrap == UndefinedTrap) ==>
      r == target.setResult
    ensures handler != None && handler.value.setTrap.NonCallable? ==> r == Throw(TypeError)
    ensures handler != None && handler.value.setTrap.Callable? ==>
      var trapResult := handler.value.setTrap.call([Obj(target.id), p, v, receiver]);
      r == if IsFalse(trapResult) then Normal(false) else SetChecked(target.own, v)
  {
    match handler
    case None => Throw(TypeError)
    case Some(h) =>
      match h.setTrap
      case Absent => target.setResult
      case UndefinedTrap => target.setResult
      case NonCallable(_) => Throw(TypeError)
      case Callable(call) =>
        if IsFalse(call([Obj(target.id), p, v, receiver])) then Normal(false)
        else SetChecked(target.own, v)
  }

  /** ProxyObject::enumeration: nothing for a proxy without target, otherwise the target's own enumeration. */
  function Enumeration(target: Option<TargetView>): (r: seq<Value>)
    ensures target == None ==> r == []
    ensures target != None ==> r == target.value.keys
  {
    match target
    case None => []
    case Some(t) => t.keys
  }
}
