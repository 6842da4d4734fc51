// The Proxy internal methods as section 9.5 of ECMA-262 8th edition
// (ES2017) defines them, over the same abstract handler and target as
// the as-written dispatch; the lemmas say where the two agree, exhibit
// the inputs where they do not, and prove the intended invariants of the
// reference.

module ProxySpec {
  import opened JsValues
  import opened ProxyDispatch

  /**
   * GetMethod (section 7.3.9): `undefined` and `null` both mean "no
   * trap"; any other non-callable value is a TypeError.
   */
  function GetMethod(trap: Trap): (r: Completion<Option<seq<Value> -> Value>>)
    ensures r.Throw? <==> trap.NonCallable? && trap.v != Null
    ensures r.Normal? && r.value.Some? <==> trap.Callable?
  {
    match trap
    case Absent => Normal(None)
    case UndefinedTrap => Normal(None)
    case NonCallable(v) => if v == Null then Normal(None) else Throw(TypeError)
    case Callable(call) => Normal(Some(call))
  }

  /** [[GetPrototypeOf]] of section 9.5.1. */
  function SpecGetPrototypeOf(handler: Option<HandlerView>, target: TargetView): (r: Completion<Value>)
    ensures r.Normal? && handler != None && handler.value.getPrototypeOfTrap.Callable? && !target.extensible ==>
      target.prototype == r
  {
    match handler
    case None => Throw(TypeError)
    case Some(h) =>
      match GetMethod(h.getPrototypeOfTrap)
      case Throw(e) => Throw(e)
      case Normal(None) => target.prototype
      case Normal(Some(call)) =>
        var handlerProto := call([Obj(target.id)]);
        if !IsObjectOrNull(handlerProto) then Throw(TypeError)
        else if target.extensible then Normal(handlerProto)
        else
          match target.prototype
          case Throw(e) => Throw(e)
          case Normal(targetProto) =>
            if handlerProto != targetProto then Throw(TypeError) else Normal(handlerProto)
  }

  /** [[Get]] of section 9.5.8: the trap sees the receiver, and only an accessor has its getter checked. */
  function SpecGet(handler: Option<HandlerView>, target: TargetView, p: Value, receiver: Value): (r: Completion<Value>)
  {
    match handler
    case None => Throw(TypeError)
    case Some(h) =>
      match GetMethod(h.getTrap)
      case Throw(e) => Throw(e)
      case Normal(None) => target.getResult
      case Normal(Some(call)) =>
        var trapResult := call([Obj(target.id), p, receiver]);
        match target.own
        case None => Normal(trapResult)
        case Some(d) =>
          if d.Data? && !d.configurable && !d.writable && trapResult != d.value then Throw(TypeError)
          else if d.Accessor? && !d.configurable && (d.getter == None || d.getter == Some(Undefined)) &&
                  trapResult != Undefined then Throw(TypeError)
          else Normal(trapResult)
  }

  /** [[Set]] of section 9.5.9: ToBoolean of the trap result, and the setter of an accessor is checked. */
  function SpecSet(handler: Option<HandlerView>, target: TargetView, p: Value, v: Value, receiver: Value): (r: Completion<bool>)
  {
    match handler
    case None => Throw(TypeError)
    case Some(h) =>
      match GetMethod(h.setTrap)
      case Throw(e) => Throw(e)
      case Normal(None) => target.setResult
      case Normal(Some(call)) =>
        if !ToBoolean(call([Obj(target.id), p, v, receiver])) then Normal(false)
        else
          match target.own
          case None => Normal(true)
          case Some(d) =>
            if d.Data? && !d.configurable && !d.writable && v != d.value then Throw(TypeError)
            else if d.Accessor? && !d.configurable && (d.setter == None || d.setter == Some(Undefined)) then Throw(TypeError)
            else Normal(true)
  }

  // ---------------------------------------------------------------------
  // Invariants the as-written dispatch keeps
  // ---------------------------------------------------------------------

  /**
   * A trap may not report a value other than that of a frozen data
   * property, nor anything but `undefined` for a non-configurable
   * property without getter.
   */
  lemma {:induction false} GetReportsFrozenValues(handler: Option<HandlerView>, target: TargetView, p: Value)
    requires handler != None && handler.value.getTrap.Callable? && target.own != None
    ensures var r := Get(handler, target, p);
      var d := target.own.value;
      (r.Normal? && d.Data? && !d.configurable && !d.writable ==> r.value == d.value) &&
      (r.Normal? && !d.configurable && GetterMissing(d) ==> r.value == Undefined)
  {
  }

  /** A successful trapped set never changes a frozen data property's value and needs a getter on a non-configurable property. */
  lemma {:induction false} SetKeepsFrozenValues(handler: Option<HandlerView>, target: TargetView, p: Value, v: Value, receiver: Value)
    requires handler != None && handler.value.setTrap.Callable? && target.own != None
    ensures var r := Set(handler, target, p, v, receiver);
      var d := target.own.value;
      (r == Normal(true) && d.Data? && !d.configurable && !d.writable ==> v == d.value) &&
      (r == Normal(true) ==> d.configurable || !GetterMissing(d))
  {
  }

  // ---------------------------------------------------------------------
  // Where the as-written dispatch agrees with the standard
  // ---------------------------------------------------------------------

  /** The two agree on [[GetPrototypeOf]] unless the trap slot holds `null`. */
  lemma {:induction false} GetPrototypeAgrees(handler: Option<HandlerView>, target: TargetView)
    requires handler != None ==> handler.value.getPrototypeOfTrap != NonCallable(Null)
    ensures GetPrototype(handler, target) == SpecGetPrototypeOf(handler, target)
  {
  }

  /**
   * The two agree on [[Get]] unless the trap slot holds `null`, the
   * receiver differs from the handler, the target's property is a
   * non-configurable data property, or its getter throws.
   */
  lemma {:induction false} GetAgrees(handler: Option<HandlerView>, target: TargetView, p: Value, receiver: Value)
    requires handler != None ==> handler.value.getTrap != NonCallable(Null) && receiver == Obj(handler.value.id)
    requires target.own != None ==> target.own.value.Accessor? || target.own.value.configurable
    requires target.own != None ==> OwnValue(target.own.value, target.getterResult).Normal?
    ensures Get(handler, target, p) == SpecGet(handler, target, p, receiver)
  {
  }

  /**
   * The two agree on [[Set]] unless the trap slot holds `null`, the trap
   * result is a ToBoolean-false value other than `false`, the target's
   * property is a non-configurable data property, or a non-configurable
   * accessor has a getter but no setter or a setter but no getter.
   */
  lemma {:induction false} SetAgrees(handler: Option<HandlerView>, target: TargetView, p: Value, v: Value, receiver: Value)
    requires handler != None ==> handler.value.setTrap != NonCallable(Null)
    requires handler != None && handler.value.setTrap.Callable? ==>
      var trapResult := handler.value.setTrap.call([Obj(target.id), p, v, receiver]);
      IsFalse(trapResult) == !ToBoolean(trapResult)
    requires target.own != None && !target.own.value.configurable ==>
      target.own.value.Accessor? &&
      GetterMissing(target.own.value) == (target.own.value.setter == None || target.own.value.setter == Some(Undefined))
    ensures Set(handler, target, p, v, receiver) == SpecSet(handler, target, p, v, receiver)
  {
  }

  // ---------------------------------------------------------------------
  // Departures: an input on which the code differs, and the standard's
  // intended behaviour proved of the reference
  // ---------------------------------------------------------------------

  function NoTarget(own: Option<Descriptor>): TargetView
  {
    TargetView(1, own, Normal(Undefined), true, Normal(Null), Normal(Number(1)), Normal(true), [])
  }

  function Handler(getTrap: Trap, setTrap: Trap): HandlerView
  {
    HandlerView(2, UndefinedTrap, getTrap, setTrap)
  }

  /** A `get` trap slot holding `null` makes the code throw instead of reading the target. */
  lemma {:induction false} NullGetTrapThrows()
    ensures var h := Some(Handler(NonCallable(Null), UndefinedTrap));
      Get(h, NoTarget(None), Str("x")) == Throw(TypeError) &&
      SpecGet(h, NoTarget(None), Str("x"), Obj(3)) == Normal(Number(1))
  {
  }

  /** In the standard a `null` trap slot is no trap at all: every operation falls through to the target. */
  lemma {:induction false} NullTrapFallsThrough(h: HandlerView, target: TargetView, p: Value, v: Value, receiver: Value)
    ensures h.getPrototypeOfTrap == NonCallable(Null) ==> SpecGetPrototypeOf(Some(h), target) == target.prototype
    ensures h.getTrap == NonCallable(Null) ==> SpecGet(Some(h), target, p, receiver) == target.getResult
    ensures h.setTrap == NonCallable(Null) ==> SpecSet(Some(h), target, p, v, receiver) == target.setResult
  {
  }

  /** A `set` trap returning `undefined` reports success in the code. */
  lemma {:induction false} FalsySetTrapResultSucceeds()
    ensures var h := Some(Handler(UndefinedTrap, Callable(args => Undefined)));
      Set(h, NoTarget(None), Str("x"), Number(1), Obj(3)) == Normal(true) &&
      SpecSet(h, NoTarget(None), Str("x"), Number(1), Obj(3)) == Normal(false)
  {
  }

  /** In the standard every ToBoolean-false trap result makes [[Set]] report failure without further checks. */
  lemma {:induction false} FalsySetTrapResultFails(h: HandlerView, target: TargetView, p: Value, v: Value, receiver: Value)
    requires h.setTrap.Callable? && !ToBoolean(h.setTrap.call([Obj(target.id), p, v, receiver]))
    ensures SpecSet(Some(h), target, p, v, receiver) == Normal(false)
  {
  }

  /** A non-configurable accessor with a getter but no setter accepts a trapped set in the code. */
  lemma {:induction false} SetterlessAccessorAcceptsSet()
    ensures var h := Some(Handler(UndefinedTrap, Callable(args => Boolean(true))));
      var t := NoTarget(Some(Accessor(Some(Obj(4)), None, false)));
      Set(h, t, Str("x"), Number(1), Obj(3)) == Normal(true) &&
      SpecSet(h, t, Str("x"), Number(1), Obj(3)) == Throw(TypeError)
  {
  }

  /** In the standard a trapped set succeeds on an accessor exactly when it is configurable or has a setter. */
  lemma {:induction false} SpecSetAcceptsSetter(h: HandlerView, target: TargetView, p: Value, v: Value, receiver: Value)
    requires h.setTrap.Callable? && ToBoolean(h.setTrap.call([Obj(target.id), p, v, receiver]))
    requires target.own != None && target.own.value.Accessor?
    ensures SpecSet(Some(h), target, p, v, receiver) == Normal(true) <==>
      target.own.value.configurable || (target.own.value.setter != None && target.own.value.setter != Some(Undefined))
  {
  }

  /** A non-configurable writable data property rejects any defined value a `get` trap reports in the code. */
  lemma {:induction false} WritableDataPropertyRejectsGet()
    ensures var h := Some(Handler(Callable(args => Number(2)), UndefinedTrap));
      var t := NoTarget(Some(Data(Number(1), true, false)));
      Get(h, t, Str("x")) == Throw(TypeError) &&
      SpecGet(h, t, Str("x"), Obj(3)) == Normal(Number(2))
  {
  }

  /** In the standard a data property constrains a trapped get only when it is frozen. */
  lemma {:induction false} SpecGetChecksOnlyFrozenData(h: HandlerView, target: TargetView, p: Value, receiver: Value)
    requires h.getTrap.Callable? && target.own != None && target.own.value.Data?
    requires target.own.value.configurable || target.own.value.writable
    ensures SpecGet(Some(h), target, p, receiver) == Normal(h.getTrap.call([Obj(target.id), p, receiver]))
  {
  }

  /**
   * A non-configurable, non-writable data property holding 1 rejects a
   * `get` trap that reports that same 1 in the code, because a data
   * descriptor is taken to have no getter.
   */
  lemma {:induction false} FrozenDataGetRejected()
    ensures var h := Some(Handler(Callable(args => Number(1)), UndefinedTrap));
      var t := NoTarget(Some(Data(Number(1), false, false)));
      Get(h, t, Str("x")) == Throw(TypeError) &&
      SpecGet(h, t, Str("x"), Obj(3)) == Normal(Number(1))
  {
  }

  /**
   * A trapped set on a non-configurable data property throws in the
   * code, even when it writes the frozen value itself.
   */
  lemma {:induction false} FrozenDataSetRejected()
    ensures var h := Some(Handler(UndefinedTrap, Callable(args => Boolean(true))));
      var t := NoTarget(Some(Data(Number(1), false, false)));
      Set(h, t, Str("x"), Number(1), Obj(3)) == Throw(TypeError) &&
      SpecSet(h, t, Str("x"), Number(1), Obj(3)) == Normal(true)
  {
  }

  /**
   * In the standard a trapped set on a data property succeeds exactly
   * when the property is configurable, writable, or already holds `v`.
   */
  lemma {:induction false} SpecSetChecksOnlyFrozenDataValue(h: HandlerView, target: TargetView, p: Value, v: Value, receiver: Value)
    requires h.setTrap.Callable? && ToBoolean(h.setTrap.call([Obj(target.id), p, v, receiver]))
    requires target.own != None && target.own.value.Data?
    ensures SpecSet(Some(h), target, p, v, receiver) == Normal(true) <==>
      target.own.value.configurable || target.own.value.writable || v == target.own.value.value
  {
  }

  /**
   * The code reads the own property's value before its checks: an
   * accessor whose getter throws makes a trapped get throw.
   */
  lemma {:induction false} ThrowingOwnGetterEscapesGet()
    ensures var h := Some(Handler(Callable(args => Number(2)), UndefinedTrap));
      var t := NoTarget(Some(Accessor(Some(Obj(4)), None, true))).(getterResult := Throw(Thrown(Str("e"))));
      Get(h, t, Str("x")) == Throw(Thrown(Str("e"))) &&
      SpecGet(h, t, Str("x"), Obj(3)) == Normal(Number(2))
  {
  }

  /** In the standard a trapped get never runs the target's own getter: its outcome does not matter. */
  lemma {:induction false} SpecGetIgnoresOwnGetter(h: Option<HandlerView>, target: TargetView, p: Value, receiver: Value, g: Completion<Value>)
    ensures SpecGet(h, target, p, receiver) == SpecGet(h, target.(getterResult := g), p, receiver)
  {
  }

  /** The code hands the trap the handler where the receiver belongs. */
  lemma {:induction false} GetTrapSeesHandlerAsReceiver()
    ensures var h := Some(Handler(Callable(args => if |args| == 3 then args[2] else Undefined), UndefinedTrap));
      Get(h, NoTarget(None), Str("x")) == Normal(Obj(2)) &&
      SpecGet(h, NoTarget(None), Str("x"), Obj(3)) == Normal(Obj(3))
  {
  }

  /** In the standard the trap is called with the target, the key and the receiver. */
  lemma {:induction false} SpecGetPassesReceiver(h: HandlerView, target: TargetView, p: Value, receiver: Value)
    requires h.getTrap.Callable? && target.own == None
    ensures SpecGet(Some(h), target, p, receiver) == Normal(h.getTrap.call([Obj(target.id), p, receiver]))
  {
  }
}
