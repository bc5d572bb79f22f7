/**
 * A Stardust plugin descriptor: the configuration of one plugin instance and
 * its lifecycle state. None of the `markAs*` transitions is guarded.
 */
module StardustDescriptor {

  import opened Wrappers

  /**
   * A JavaScript value as the descriptor stores it: `undefined`, `null`, a
   * string, or an object or function known only by its identity.
   */
  datatype JsValue = Undefined | Null | Str(s: string) | Ref(identity: nat)

  /** JavaScript truthiness of such a value. */
  predicate Truthy(v: JsValue)
  {
    match v
    case Undefined => false
    case Null => false
    case Str(s) => s != ""
    case Ref(_) => true
  }

  datatype State = Registered | Initialized | Destroyed | Failed

  /** A user handler: its identity and whether calling it throws. */
  datatype Handler = Handler(identity: nat, throws: bool)

  /** The handlers after `config.onX || null`: None for a missing handler. */
  datatype Handlers = Handlers(onInit: Option<Handler>, onDestroy: Option<Handler>, onReload: Option<Handler>)

  /** The configuration object passed to the constructor. */
  datatype Config = Config(
    name: string,
    element: string,
    onInit: Option<Handler>,
    onDestroy: Option<Handler>,
    onReload: Option<Handler>,
    options: JsValue,
    context: JsValue
  )

  /** The fields of a descriptor that change after construction. */
  datatype Lifecycle = Lifecycle(
    state: State,
    adapterType: JsValue,
    instance: JsValue,
    error: JsValue,
    context: JsValue,
    options: JsValue
  )

  /** The lifecycle of a new descriptor: registered, with no type and no instance. */
  function Registration(config: Config): (l: Lifecycle)
    ensures l.state == Registered && l.instance == Null && l.adapterType == Null
    ensures l.error == Undefined && l.options == config.options
    ensures l.context == (if Truthy(config.context) then config.context else Null)
  {
    Lifecycle(Registered, Null, Null, Undefined,
              if Truthy(config.context) then config.context else Null, config.options)
  }

  /** `isActive`: initialized and holding an instance. */
  predicate IsActive(l: Lifecycle)
  {
    l.state == Initialized && l.instance != Null
  }

  function MarkedInitialized(l: Lifecycle, instance: JsValue): (r: Lifecycle)
    ensures r.state == Initialized && r.instance == instance
    ensures IsActive(r) <==> instance != Null
    ensures r.(state := l.state, instance := l.instance) == l
  {
    l.(state := Initialized, instance := instance)
  }

  function MarkedDestroyed(l: Lifecycle): (r: Lifecycle)
    ensures r.state == Destroyed && r.instance == Null && !IsActive(r)
    ensures r.(state := l.state, instance := l.instance) == l
  {
    l.(state := Destroyed, instance := Null)
  }

  /** Failing stores the error and leaves the instance where it was. */
  function MarkedFailed(l: Lifecycle, error: JsValue): (r: Lifecycle)
    ensures r.state == Failed && r.error == error && r.instance == l.instance && !IsActive(r)
    ensures r.(state := l.state, error := l.error) == l
  {
    l.(state := Failed, error := error)
  }

  function WithAdapterType(l: Lifecycle, adapterType: JsValue): (r: Lifecycle)
    ensures r.adapterType == adapterType && r.(adapterType := l.adapterType) == l
  {
    l.(adapterType := adapterType)
  }

  /** `StardustDescriptor`. The identity is passed in: it is derived from the clock. */
  class Descriptor {
    const id: int
    const name: string
    const element: string
    const handlers: Handlers
    var state: State
    var adapterType: JsValue
    var instance: JsValue
    var error: JsValue
    var context: JsValue
    var options: JsValue

    function Snapshot(): Lifecycle
      reads this
    {
      Lifecycle(state, adapterType, instance, error, context, options)
    }

    predicate IsActive()
      reads this
    {
      state == Initialized && instance != Null
    }

    constructor (config: Config, id: int)
      ensures this.id == id && name == config.name && element == config.element
      ensures handlers == Handlers(config.onInit, config.onDestroy, config.onReload)
      ensures Snapshot() == Registration(config)
    {
      this.id := id;
      name := config.name;
      element := config.element;
      state := Registered;
      adapterType := Null;
      handlers := Handlers(config.onInit, config.onDestroy, config.onReload);
      options := config.options;
      context := if Truthy(config.context) then config.context else Null;
      instance := Null;
      error := Undefined;
    }

    method MarkAsInitialized(x: JsValue)
      modifies this
      ensures Snapshot() == MarkedInitialized(old(Snapshot()), x)
    {
      state := Initialized;
      instance := x;
    }

    method MarkAsDestroyed()
      modifies this
      ensures Snapshot() == MarkedDestroyed(old(Snapshot()))
      ensures !IsActive()
    {
      state := Destroyed;
      instance := Null;
    }

    method MarkAsFailed(e: JsValue)
      modifies this
      ensures Snapshot() == MarkedFailed(old(Snapshot()), e)
    {
      state := Failed;
      error := e;
    }

    method SetAdapterType(t: JsValue)
      modifies this
      ensures Snapshot() == WithAdapterType(old(Snapshot()), t)
    {
      adapterType := t;
    }

    /** Whatever an adapter wrote into the descriptor's fields, written back in one step. */
    method Apply(l: Lifecycle)
      modifies this
      ensures Snapshot() == l
    {
      state, adapterType, instance, error, context, options :=
        l.state, l.adapterType, l.instance, l.error, l.context, l.options;
    }
  }
}
