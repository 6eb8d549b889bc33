/**
 * `defineComponent` and the element class it returns, with the module-wide
 * `currentInstance` slot and the lifecycle methods `onBeforeMount` ...
 * `onUnmounted`. Each element method is proved against the function of
 * module Lifecycle that describes it.
 */
module Component {
  import opened Js
  import opened Dicts
  import opened Props
  import opened Lifecycle

  /** The module-level state: `let currentInstance = null`. */
  class Runtime {
    var currentInstance: Element?

    constructor ()
      ensures currentInstance == null
    {
      currentInstance := null;
    }
  }

  /** What `defineComponent` closes over: the static `observedAttributes` and `setup`. */
  datatype Definition = Definition(observedAttributes: seq<string>, setup: Setup)

  /**
   * `defineComponent(setup, { props })`: `options.props || {}` is
   * normalised, and the observed attributes are the keys whose descriptor
   * is non-null with the attribute flag set.
   */
  method DefineComponent(setup: Setup, props: Declaration<PropOptionsObject>, camelize: string -> string)
    returns (def: Definition)
    modifies UserObjects(props)
    ensures def.setup == setup
    ensures def.observedAttributes == ObservedAttributes(Normalize(old(DeclarationView(props)), camelize))
    ensures forall o :: o in UserObjects(props) ==> o.View() == WithFlag(old(o.View()))
  {
    var decl := if props.Nullish? then Keyed([]) else props;
    assert UserObjects(decl) == UserObjects(props);
    var normalized := NormalizePropsOptions(decl, camelize);
    def := Definition(ObservedAttributes(DictView(normalized)), setup);
  }

  /** An element of a class returned by `defineComponent`. */
  class Element {
    var hooks: Buckets
    var props: map<string, Value>
    var isMounted: bool
    var stopped: bool
    var trace: seq<Event>
    var template: FunctionId

    /** The element's state as a value. */
    function Snapshot(): State
      reads this
    {
      State(hooks, props, isMounted, stopped, trace, template)
    }

    /**
     * The constructor: five empty buckets, then `setup` with this element
     * as `currentInstance`, then `_bm`, the shadow root and the first
     * render pass.
     */
    constructor (rt: Runtime, def: Definition)
      modifies rt
      ensures Snapshot() == Construct(def.setup)
      ensures rt.currentInstance == null
    {
      hooks := map[];
      props := map[];
      isMounted := false;
      stopped := false;
      trace := [];
      template := def.setup.template;
      new;
      InitBuckets();
      rt.currentInstance := this;
      RunSetupSteps(rt, def.setup.steps);
      rt.currentInstance := null;
      RunHooks(BeforeMount);
      trace := trace + [ShadowAttached];
      EffectBody();
    }

    /** `hookNames.forEach((name) => { this._hooks.set(name, new Set()) })` */
    method InitBuckets()
      requires hooks == map[]
      modifies this
      ensures Snapshot() == old(Snapshot()).(hooks := EmptyBuckets())
    {
      for i := 0 to |HookNames|
        invariant forall h :: h in hooks <==> h in HookNames[..i]
        invariant forall h :: h in hooks ==> hooks[h] == []
        invariant Snapshot() == old(Snapshot()).(hooks := hooks)
      {
        assert HookNames[..i + 1] == HookNames[..i] + [HookNames[i]];
        hooks := hooks[HookNames[i] := []];
      }
      assert HookNames[..|HookNames|] == HookNames;
      assert hooks == EmptyBuckets();
    }

    /** The body of `setup`, run with this element as `currentInstance`. */
    method RunSetupSteps(rt: Runtime, steps: seq<SetupStep>)
      requires rt.currentInstance == this
      modifies this
      ensures rt.currentInstance == this
      ensures Snapshot() == old(Snapshot()).(hooks := RunSetup(old(hooks), steps))
    {
      for i := 0 to |steps|
        invariant rt.currentInstance == this
        invariant Snapshot() == old(Snapshot()).(hooks := RunSetup(old(hooks), steps[..i]))
      {
        assert steps[..i + 1][..i] == steps[..i];
        match steps[i] {
          case Register(m, cb) =>
            var _ := CallLifecycleMethod(rt, m, cb);
          case CallUnregister(u) =>
            CallUnregisterFunction(rt, u);
        }
      }
      assert steps[..|steps|] == steps;
    }

    /** `_runHooks(name)`: every callback of the bucket, in insertion order. */
    method RunHooks(h: HookName)
      modifies this
      ensures Snapshot() == Lifecycle.RunHooks(old(Snapshot()), h)
    {
      if h in hooks {
        var b := hooks[h];
        for i := 0 to |b|
          invariant Snapshot() == old(Snapshot()).(trace := old(trace) + Fire(h, b[..i]))
        {
          FireStep(h, b, i);
          trace := trace + [Called(h, b[i])];
        }
        assert b[..|b|] == b;
      }
    }

    /** The function given to `effect`: one render pass. */
    method EffectBody()
      modifies this
      ensures Snapshot() == Lifecycle.EffectBody(old(Snapshot()))
    {
      if isMounted {
        RunHooks(BeforeUpdate);
      }
      trace := trace + [Rendered(template)];
      if isMounted {
        RunHooks(Updated);
      } else {
        isMounted := true;
      }
    }

    /** The reactive engine re-runs the effect, unless its scope is stopped. */
    method RenderPass()
      modifies this
      ensures Snapshot() == Lifecycle.RenderPass(old(Snapshot()))
    {
      if !stopped {
        EffectBody();
      }
    }

    /** `connectedCallback()` */
    method ConnectedCallback()
      modifies this
      ensures Snapshot() == Connect(old(Snapshot()))
    {
      RunHooks(Mounted);
    }

    /** `disconnectedCallback()` */
    method DisconnectedCallback()
      modifies this
      ensures Snapshot() == Disconnect(old(Snapshot()))
    {
      RunHooks(Unmounted);
      stopped := true;
    }

    /** `attributeChangedCallback(name, _oldValue, newValue)` */
    method AttributeChangedCallback(name: string, oldValue: Value, newValue: Value)
      modifies this
      ensures Snapshot() == AttributeChanged(old(Snapshot()), name, newValue)
    {
      props := props[name := newValue];
    }
  }

  /** What a registration or unregistration may write: the current instance, if there is one. */
  function CurrentFrame(rt: Runtime): set<Element>
    reads rt
  {
    if rt.currentInstance != null then {rt.currentInstance} else {}
  }

  /**
   * Calling the function `createLifecycleMethod(m.name)` returns: with an
   * instance current, the callback is added to that instance's bucket for
   * the hook; with none, nothing changes. The unregister function is
   * returned either way.
   */
  method CallLifecycleMethod(rt: Runtime, m: LifecycleMethod, cb: FunctionId) returns (unregister: Unregister)
    modifies CurrentFrame(rt)
    ensures unregister == Unregister(m.name, cb)
    ensures rt.currentInstance == old(rt.currentInstance)
    ensures rt.currentInstance != null ==>
      rt.currentInstance.Snapshot() == old(rt.currentInstance.Snapshot()).(hooks := RegisterIn(old(rt.currentInstance.hooks), m.name, cb))
  {
    var current := rt.currentInstance;
    if current != null {
      current.hooks := RegisterIn(current.hooks, m.name, cb);
    }
    unregister := Unregister(m.name, cb);
  }

  /**
   * Calling an unregister function: the callback is removed from the
   * bucket of whichever instance is current now, which need not be the one
   * it was registered on; with none current, nothing changes.
   */
  method CallUnregisterFunction(rt: Runtime, unregister: Unregister)
    modifies CurrentFrame(rt)
    ensures rt.currentInstance == old(rt.currentInstance)
    ensures rt.currentInstance != null ==>
      rt.currentInstance.Snapshot()
        == old(rt.currentInstance.Snapshot()).(hooks := UnregisterIn(old(rt.currentInstance.hooks), unregister.name, unregister.cb))
  {
    var current := rt.currentInstance;
    if current != null {
      current.hooks := UnregisterIn(current.hooks, unregister.name, unregister.cb);
    }
  }

  /**
   * An unregister function called after `setup` has returned finds no
   * current instance and removes nothing: the callback still fires on
   * connect.
   */
  method UnregisterAfterSetup(cb: FunctionId, template: FunctionId) returns (bucket: Bucket, fired: seq<Event>)
    ensures bucket == [cb]
    ensures fired == [Called(Mounted, cb)]
  {
    var rt := new Runtime();
    var def := Definition([], Setup([Register(OnMounted, cb)], template));
    var el := new Element(rt, def);
    ConstructOrder(def.setup);
    SetupRegistersOne(cb);
    var before := |el.trace|;
    CallUnregisterFunction(rt, Unregister(Mounted, cb));
    bucket := el.hooks[Mounted];
    el.ConnectedCallback();
    fired := el.trace[before..];
    assert fired == Fire(Mounted, [cb]);
  }

  /**
   * An unregister function obtained while constructing one element and
   * called during the `setup` of another removes the callback from the
   * other element, not from the first.
   */
  method UnregisterDuringOtherSetup(cb: FunctionId, template: FunctionId) returns (first: Bucket, second: Bucket)
    ensures first == [cb]
    ensures second == []
  {
    var rt := new Runtime();
    var a := new Element(rt, Definition([], Setup([Register(OnMounted, cb)], template)));
    var b := new Element(rt, Definition([], Setup([Register(OnMounted, cb), CallUnregister(Unregister(Mounted, cb))], template)));
    ConstructOrder(Setup([Register(OnMounted, cb)], template));
    ConstructOrder(Setup([Register(OnMounted, cb), CallUnregister(Unregister(Mounted, cb))], template));
    SetupRegistersOne(cb);
    assert BucketOf(EmptyBuckets(), Mounted) == [];
    SetupUndo(EmptyBuckets(), [], Mounted, cb);
    assert [] + [Register(OnMounted, cb), CallUnregister(Unregister(Mounted, cb))]
        == [Register(OnMounted, cb), CallUnregister(Unregister(Mounted, cb))];
    first, second := a.hooks[Mounted], b.hooks[Mounted];
  }
}
