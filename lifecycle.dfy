/**
 * The life of one custom element built by `defineComponent`, on values: its
 * five hook buckets, what `setup` registers in them, the render passes of
 * its effect, and the callbacks the element receives from the DOM. The
 * element class in module Component is proved against these functions.
 *
 * Hook callbacks, templates and `setup` are opaque to the model: a callback
 * is known by an id and firing it is recorded as an event; rendering a
 * template is recorded as an event too.
 */
module Lifecycle {
  import opened Js

  /** The members of `hookNames`. */
  datatype HookName = BeforeMount | Mounted | BeforeUpdate | Updated | Unmounted

  /** The key each bucket has in `_hooks`. */
  function Key(h: HookName): string {
    match h
    case BeforeMount => "_bm"
    case Mounted => "_m"
    case BeforeUpdate => "_bu"
    case Updated => "_u"
    case Unmounted => "_um"
  }

  /** `hookNames`, in its declared order. */
  const HookNames: seq<HookName> := [BeforeMount, Mounted, BeforeUpdate, Updated, Unmounted]

  /** Every hook is in `hookNames`, once, under a key of its own. */
  lemma HookNamesComplete()
    ensures forall h: HookName :: h in HookNames
    ensures forall i, j :: 0 <= i < j < |HookNames| ==> Key(HookNames[i]) != Key(HookNames[j])
  {
    forall h: HookName ensures h in HookNames {
      match h
      case BeforeMount => assert HookNames[0] == h;
      case Mounted => assert HookNames[1] == h;
      case BeforeUpdate => assert HookNames[2] == h;
      case Updated => assert HookNames[3] == h;
      case Unmounted => assert HookNames[4] == h;
    }
  }

  // ---------------------------------------------------------------------------
  // A bucket is a JavaScript `Set` of callbacks: insertion-ordered, no repeats.

  type Bucket = seq<FunctionId>

  predicate NoRepeats(b: Bucket) {
    forall i, j :: 0 <= i < j < |b| ==> b[i] != b[j]
  }

  /** `set.add(cb)`: a new callback goes last, a present one stays where it is. */
  function Add(b: Bucket, cb: FunctionId): Bucket {
    if cb in b then b else b + [cb]
  }

  /** `set.delete(cb)`: the callback is removed, the others keep their order. */
  function Delete(b: Bucket, cb: FunctionId): (r: Bucket)
    ensures |r| <= |b|
  {
    if b == [] then []
    else (if b[0] == cb then [] else [b[0]]) + Delete(b[1..], cb)
  }

  lemma AddMembers(b: Bucket, cb: FunctionId)
    ensures forall x :: x in Add(b, cb) <==> x in b || x == cb
    ensures NoRepeats(b) ==> NoRepeats(Add(b, cb))
  {
  }

  /** Adding twice is adding once. */
  lemma AddTwice(b: Bucket, cb: FunctionId)
    ensures Add(Add(b, cb), cb) == Add(b, cb)
  {
  }

  lemma {:induction false} DeleteMembers(b: Bucket, cb: FunctionId)
    ensures forall x :: x in Delete(b, cb) <==> x in b && x != cb
  {
    if b != [] {
      DeleteMembers(b[1..], cb);
      assert b == [b[0]] + b[1..];
    }
  }

  lemma {:induction false} DeleteKeepsNoRepeats(b: Bucket, cb: FunctionId)
    requires NoRepeats(b)
    ensures NoRepeats(Delete(b, cb))
  {
    if b != [] {
      var rest := b[1..];
      assert NoRepeats(rest) by {
        forall i, j | 0 <= i < j < |rest| ensures rest[i] != rest[j] {
          assert rest[i] == b[i + 1] && rest[j] == b[j + 1];
        }
      }
      DeleteKeepsNoRepeats(rest, cb);
      DeleteMembers(rest, cb);
      forall m | 0 <= m < |rest| ensures rest[m] != b[0] {
        assert rest[m] == b[m + 1];
      }
      var head := if b[0] == cb then [] else [b[0]];
      var tail := Delete(rest, cb);
      forall i, j | 0 <= i < j < |head + tail| ensures (head + tail)[i] != (head + tail)[j] {
        if i < |head| {
          assert (head + tail)[j] == tail[j - |head|] && tail[j - |head|] in tail;
        } else {
          assert (head + tail)[i] == tail[i - |head|] && (head + tail)[j] == tail[j - |head|];
        }
      }
    }
  }

  /** Deleting a callback that is not there changes nothing. */
  lemma {:induction false} DeleteAbsent(b: Bucket, cb: FunctionId)
    requires cb !in b
    ensures Delete(b, cb) == b
  {
    if b != [] {
      DeleteAbsent(b[1..], cb);
      assert b == [b[0]] + b[1..];
    }
  }

  /** Deleting after adding a callback that was not there restores the bucket. */
  lemma DeleteAfterAdd(b: Bucket, cb: FunctionId)
    requires cb !in b
    ensures Delete(Add(b, cb), cb) == b
  {
    DeleteAppend(b, [cb], cb);
    DeleteAbsent(b, cb);
  }

  lemma {:induction false} DeleteAppend(a: Bucket, c: Bucket, cb: FunctionId)
    ensures Delete(a + c, cb) == Delete(a, cb) + Delete(c, cb)
  {
    if a != [] {
      assert (a + c)[0] == a[0] && (a + c)[1..] == a[1..] + c;
      DeleteAppend(a[1..], c, cb);
    } else {
      assert a + c == c;
    }
  }

  /** Deleting twice is deleting once. */
  lemma DeleteTwice(b: Bucket, cb: FunctionId)
    ensures Delete(Delete(b, cb), cb) == Delete(b, cb)
  {
    DeleteMembers(b, cb);
    DeleteAbsent(Delete(b, cb), cb);
  }

  // ---------------------------------------------------------------------------
  // The hook buckets of an element and the registration functions.

  type Buckets = map<HookName, Bucket>

  /** The buckets after `hookNames.forEach(name => _hooks.set(name, new Set()))`. */
  function EmptyBuckets(): (hooks: Buckets)
    ensures forall h :: h in hooks && hooks[h] == []
  {
    HookNamesComplete();
    map h | h in HookNames :: []
  }

  /** `_hooks.get(name)`, with `undefined` read as an empty set. */
  function BucketOf(hooks: Buckets, h: HookName): Bucket {
    if h in hooks then hooks[h] else []
  }

  /** `_hooks.get(name)?.add(cb)` */
  function RegisterIn(hooks: Buckets, h: HookName, cb: FunctionId): Buckets {
    if h in hooks then hooks[h := Add(hooks[h], cb)] else hooks
  }

  /** `_hooks.get(name)?.delete(cb)` */
  function UnregisterIn(hooks: Buckets, h: HookName, cb: FunctionId): Buckets {
    if h in hooks then hooks[h := Delete(hooks[h], cb)] else hooks
  }

  /**
   * Registering touches only the hook's own bucket, where the callback is
   * then present, and registering twice is registering once.
   */
  lemma RegisterInEffect(hooks: Buckets, h: HookName, cb: FunctionId)
    ensures RegisterIn(hooks, h, cb).Keys == hooks.Keys
    ensures forall g :: g in hooks && g != h ==> RegisterIn(hooks, h, cb)[g] == hooks[g]
    ensures h in hooks ==> cb in RegisterIn(hooks, h, cb)[h]
    ensures forall x :: h in hooks ==> (x in RegisterIn(hooks, h, cb)[h] <==> x in hooks[h] || x == cb)
    ensures RegisterIn(RegisterIn(hooks, h, cb), h, cb) == RegisterIn(hooks, h, cb)
  {
    if h in hooks {
      AddMembers(hooks[h], cb);
      AddTwice(hooks[h], cb);
    }
  }

  /**
   * Unregistering touches only the hook's own bucket, removes exactly the
   * callback, is idempotent, and undoes a registration of a callback that
   * was not there.
   */
  lemma UnregisterInEffect(hooks: Buckets, h: HookName, cb: FunctionId)
    ensures UnregisterIn(hooks, h, cb).Keys == hooks.Keys
    ensures forall g :: g in hooks && g != h ==> UnregisterIn(hooks, h, cb)[g] == hooks[g]
    ensures forall x :: h in hooks ==> (x in UnregisterIn(hooks, h, cb)[h] <==> x in hooks[h] && x != cb)
    ensures h in hooks && cb !in hooks[h] ==> UnregisterIn(RegisterIn(hooks, h, cb), h, cb) == hooks
    ensures UnregisterIn(UnregisterIn(hooks, h, cb), h, cb) == UnregisterIn(hooks, h, cb)
  {
    UnregisterTwice(hooks, h, cb);
    UnregisterUndoes(hooks, h, cb);
    if h in hooks {
      DeleteMembers(hooks[h], cb);
    }
  }

  /** Unregistering a callback just registered, where it was absent, restores the buckets. */
  lemma UnregisterUndoes(hooks: Buckets, h: HookName, cb: FunctionId)
    ensures h in hooks && cb !in hooks[h] ==> UnregisterIn(RegisterIn(hooks, h, cb), h, cb) == hooks
  {
    if h in hooks && cb !in hooks[h] {
      DeleteAfterAdd(hooks[h], cb);
      assert hooks[h := hooks[h]] == hooks;
    }
  }

  /** Calling the same unregister function twice is calling it once. */
  lemma UnregisterTwice(hooks: Buckets, h: HookName, cb: FunctionId)
    ensures UnregisterIn(UnregisterIn(hooks, h, cb), h, cb) == UnregisterIn(hooks, h, cb)
  {
    if h in hooks {
      DeleteTwice(hooks[h], cb);
    }
  }

  /** A function made by `createLifecycleMethod(name)`. */
  datatype LifecycleMethod = LifecycleMethod(name: HookName)

  /** `onBeforeMount`, `onMounted`, `onBeforeUpdate`, `onUpdated` and `onUnmounted`. */
  const OnBeforeMount := LifecycleMethod(BeforeMount)
  const OnMounted := LifecycleMethod(Mounted)
  const OnBeforeUpdate := LifecycleMethod(BeforeUpdate)
  const OnUpdated := LifecycleMethod(Updated)
  const OnUnmounted := LifecycleMethod(Unmounted)

  /** The five exports, in the order they are declared. */
  const Exports: seq<LifecycleMethod> := [OnBeforeMount, OnMounted, OnBeforeUpdate, OnUpdated, OnUnmounted]

  /**
   * Each export is the lifecycle method of its own hook: the i-th export
   * belongs to the i-th of `hookNames`, so every hook has exactly one.
   */
  lemma ExportsNamed()
    ensures Key(OnBeforeMount.name) == "_bm" && Key(OnMounted.name) == "_m"
    ensures Key(OnBeforeUpdate.name) == "_bu" && Key(OnUpdated.name) == "_u"
    ensures Key(OnUnmounted.name) == "_um"
    ensures |Exports| == |HookNames|
    ensures forall i :: 0 <= i < |Exports| ==> Exports[i] == LifecycleMethod(HookNames[i])
  {
  }


  /**
   * The closure a lifecycle method returns. It captures only the hook name
   * and the callback; the instance it acts on is looked up when it is called.
   */
  datatype Unregister = Unregister(name: HookName, cb: FunctionId)

  /** One thing `setup` does that reaches the hook registry. */
  datatype SetupStep =
    | Register(lifecycleMethod: LifecycleMethod, cb: FunctionId)
    | CallUnregister(unregister: Unregister)

  /** A `setup` function: what it does to the registry, then the render function it returns. */
  datatype Setup = Setup(steps: seq<SetupStep>, template: FunctionId)

  /** One step of `setup` while the element under construction is `currentInstance`. */
  function SetupStepIn(hooks: Buckets, step: SetupStep): Buckets {
    match step
    case Register(m, cb) => RegisterIn(hooks, m.name, cb)
    case CallUnregister(u) => UnregisterIn(hooks, u.name, u.cb)
  }

  function RunSetup(hooks: Buckets, steps: seq<SetupStep>): Buckets {
    if steps == [] then hooks
    else SetupStepIn(RunSetup(hooks, steps[..|steps| - 1]), steps[|steps| - 1])
  }

  /** `setup` adds and removes callbacks but never a bucket. */
  lemma {:induction false} RunSetupKeys(hooks: Buckets, steps: seq<SetupStep>)
    ensures RunSetup(hooks, steps).Keys == hooks.Keys
  {
    if steps != [] {
      var before := RunSetup(hooks, steps[..|steps| - 1]);
      RunSetupKeys(hooks, steps[..|steps| - 1]);
      match steps[|steps| - 1] {
        case Register(m, cb) => RegisterInEffect(before, m.name, cb);
        case CallUnregister(u) => UnregisterInEffect(before, u.name, u.cb);
      }
    }
  }

  /** No bucket ever holds a callback twice. */
  predicate BucketsNoRepeats(hooks: Buckets) {
    forall h :: h in hooks ==> NoRepeats(hooks[h])
  }

  lemma {:induction false} RunSetupNoRepeats(hooks: Buckets, steps: seq<SetupStep>)
    requires BucketsNoRepeats(hooks)
    ensures BucketsNoRepeats(RunSetup(hooks, steps))
  {
    if steps != [] {
      var before := RunSetup(hooks, steps[..|steps| - 1]);
      RunSetupNoRepeats(hooks, steps[..|steps| - 1]);
      match steps[|steps| - 1] {
        case Register(m, cb) =>
          if m.name in before { AddMembers(before[m.name], cb); }
        case CallUnregister(u) =>
          if u.name in before { DeleteKeepsNoRepeats(before[u.name], u.cb); }
      }
    }
  }

  /**
   * A setup that registers a callback and then calls the unregister
   * function it got back, with the same element still current, leaves the
   * buckets as they were, provided the callback was not registered before.
   */
  lemma SetupUndo(hooks: Buckets, steps: seq<SetupStep>, h: HookName, cb: FunctionId)
    requires h in hooks
    requires cb !in BucketOf(RunSetup(hooks, steps), h)
    ensures RunSetup(hooks, steps + [Register(LifecycleMethod(h), cb), CallUnregister(Unregister(h, cb))])
         == RunSetup(hooks, steps)
  {
    var all := steps + [Register(LifecycleMethod(h), cb), CallUnregister(Unregister(h, cb))];
    assert all[..|all| - 1] == steps + [Register(LifecycleMethod(h), cb)];
    assert all[..|all| - 1][..|all| - 2] == steps;
    RunSetupKeys(hooks, steps);
    UnregisterInEffect(RunSetup(hooks, steps), h, cb);
  }

  /** A setup whose only step registers `cb` with `onMounted` leaves exactly `[cb]` in `_m`. */
  lemma SetupRegistersOne(cb: FunctionId)
    ensures BucketOf(RunSetup(EmptyBuckets(), [Register(OnMounted, cb)]), Mounted) == [cb]
  {
    assert [Register(OnMounted, cb)][..0] == [];
  }

  // ---------------------------------------------------------------------------
  // Events and the element's state.

  /** What the element does that the outside world sees. */
  datatype Event =
    | Called(hook: HookName, cb: FunctionId)  // a hook callback is invoked
    | ShadowAttached                          // `attachShadow({ mode: 'closed' })`
    | Rendered(template: FunctionId)          // `render(template(), root)`

  /** `_runHooks(name)` on a bucket: each callback in turn. */
  function Fire(h: HookName, b: Bucket): (r: seq<Event>)
    ensures |r| == |b|
  {
    seq(|b|, i requires 0 <= i < |b| => Called(h, b[i]))
  }

  /** Firing one more callback of a bucket adds one event. */
  lemma FireStep(h: HookName, b: Bucket, i: nat)
    requires i < |b|
    ensures Fire(h, b[..i + 1]) == Fire(h, b[..i]) + [Called(h, b[i])]
  {
  }

  function Count(events: seq<Event>, e: Event): nat {
    if events == [] then 0 else (if events[0] == e then 1 else 0) + Count(events[1..], e)
  }

  /** In a bucket without repeats, each callback fires once and nothing else fires. */
  lemma {:induction false} FireOnce(h: HookName, b: Bucket, cb: FunctionId)
    requires NoRepeats(b)
    ensures Count(Fire(h, b), Called(h, cb)) == if cb in b then 1 else 0
  {
    if b != [] {
      var rest := b[1..];
      assert NoRepeats(rest) by {
        forall i, j | 0 <= i < j < |rest| ensures rest[i] != rest[j] {
          assert rest[i] == b[i + 1] && rest[j] == b[j + 1];
        }
      }
      assert Fire(h, b)[1..] == Fire(h, rest);
      FireOnce(h, rest, cb);
      if b[0] == cb {
        forall m | 0 <= m < |rest| ensures rest[m] != cb {
          assert rest[m] == b[m + 1];
        }
      } else {
        assert cb in b <==> cb in rest by {
          assert b == [b[0]] + rest;
        }
      }
    }
  }

  /** Only hooks of the given phase fire. */
  predicate AllCalled(events: seq<Event>, phases: set<HookName>) {
    forall i :: 0 <= i < |events| ==> events[i].Called? && events[i].hook in phases
  }

  /**
   * The element: its buckets, its reactive props object, the `isMounted`
   * flag of its effect, whether its effect scope is stopped, what it has
   * done so far, and the render function `setup` returned.
   */
  datatype State = State(
    hooks: Buckets,
    props: map<string, Value>,
    isMounted: bool,
    stopped: bool,
    trace: seq<Event>,
    template: FunctionId)

  /** `this._runHooks(name)` */
  function RunHooks(s: State, h: HookName): State {
    s.(trace := s.trace + Fire(h, BucketOf(s.hooks, h)))
  }

  /** The body of the element's effect: one render pass. */
  function EffectBody(s: State): State {
    var s1 := if s.isMounted then RunHooks(s, BeforeUpdate) else s;
    var s2 := s1.(trace := s1.trace + [Rendered(s.template)]);
    if s.isMounted then RunHooks(s2, Updated) else s2.(isMounted := true)
  }

  /** The element constructor, with `setup` given as a script. */
  function Construct(setup: Setup): State {
    var hooks := RunSetup(EmptyBuckets(), setup.steps);
    var s0 := State(hooks, map[], false, false, [], setup.template);
    var s1 := RunHooks(s0, BeforeMount);
    EffectBody(s1.(trace := s1.trace + [ShadowAttached]))
  }

  /** The reactive engine re-runs the effect; a stopped scope runs nothing. */
  function RenderPass(s: State): State {
    if s.stopped then s else EffectBody(s)
  }

  /** `connectedCallback` */
  function Connect(s: State): State {
    RunHooks(s, Mounted)
  }

  /** `disconnectedCallback` */
  function Disconnect(s: State): State {
    RunHooks(s, Unmounted).(stopped := true)
  }

  /** `attributeChangedCallback(name, _oldValue, newValue)` */
  function AttributeChanged(s: State, name: string, value: Value): State {
    s.(props := s.props[name := value])
  }

  /** What can happen to a constructed element. */
  datatype Input =
    | Connected
    | Disconnected
    | AttributeWritten(name: string, value: Value)
    | Triggered  // the reactive engine schedules the effect again

  function Step(s: State, input: Input): State {
    match input
    case Connected => Connect(s)
    case Disconnected => Disconnect(s)
    case AttributeWritten(name, value) => AttributeChanged(s, name, value)
    case Triggered => RenderPass(s)
  }

  function Run(s: State, inputs: seq<Input>): State
    decreases |inputs|
  {
    if inputs == [] then s else Run(Step(s, inputs[0]), inputs[1..])
  }

  // ---------------------------------------------------------------------------
  // Properties of the life cycle.

  /**
   * Construction: the five buckets hold what `setup` left in them, `_bm`
   * fires once, then the shadow root is attached, then the first render
   * pass runs without `_bu` or `_u` and sets `isMounted`.
   */
  lemma ConstructOrder(setup: Setup)
    ensures var s := Construct(setup);
      var hooks := RunSetup(EmptyBuckets(), setup.steps);
      && s.hooks == hooks
      && (forall h :: h in s.hooks)
      && BucketsNoRepeats(s.hooks)
      && s.trace == Fire(BeforeMount, hooks[BeforeMount]) + [ShadowAttached, Rendered(setup.template)]
      && s.isMounted && !s.stopped && s.props == map[]
  {
    RunSetupKeys(EmptyBuckets(), setup.steps);
    RunSetupNoRepeats(EmptyBuckets(), setup.steps);
  }

  /** Every pass after the first: `_bu`, render, `_u`, and nothing else changes. */
  lemma LaterPass(s: State)
    requires s.isMounted && !s.stopped
    ensures RenderPass(s) == s.(trace := s.trace + Fire(BeforeUpdate, BucketOf(s.hooks, BeforeUpdate))
                                   + [Rendered(s.template)] + Fire(Updated, BucketOf(s.hooks, Updated)))
  {
  }

  /** Connecting fires exactly the `_m` bucket, in order, and changes nothing else. */
  lemma ConnectFiresMounted(s: State)
    ensures Connect(s) == s.(trace := s.trace + Fire(Mounted, BucketOf(s.hooks, Mounted)))
    ensures AllCalled(Fire(Mounted, BucketOf(s.hooks, Mounted)), {Mounted})
  {
  }

  /** Disconnecting fires exactly the `_um` bucket, then stops the scope. */
  lemma DisconnectStops(s: State)
    ensures Disconnect(s) == s.(trace := s.trace + Fire(Unmounted, BucketOf(s.hooks, Unmounted)), stopped := true)
    ensures AllCalled(Fire(Unmounted, BucketOf(s.hooks, Unmounted)), {Unmounted})
  {
  }

  /** An attribute change writes one prop and leaves everything else alone. */
  lemma AttributeWrites(s: State, name: string, value: Value)
    ensures var r := AttributeChanged(s, name, value);
      && r.props.Keys == s.props.Keys + {name} && r.props[name] == value
      && (forall k :: k in s.props && k != name ==> r.props[k] == s.props[k])
      && r.(props := s.props) == s
  {
  }

  /** What an input does to the parts of the state that never go back. */
  lemma StepMonotone(s: State, input: Input)
    ensures Step(s, input).hooks == s.hooks && Step(s, input).template == s.template
    ensures s.isMounted ==> Step(s, input).isMounted
    ensures s.stopped ==> Step(s, input).stopped
    ensures |Step(s, input).trace| >= |s.trace| && Step(s, input).trace[..|s.trace|] == s.trace
  {
  }

  /** After construction the buckets never change, `isMounted` never goes back, nor does a stop. */
  lemma {:induction false} RunMonotone(s: State, inputs: seq<Input>)
    ensures Run(s, inputs).hooks == s.hooks
    ensures s.isMounted ==> Run(s, inputs).isMounted
    ensures s.stopped ==> Run(s, inputs).stopped
    ensures |Run(s, inputs).trace| >= |s.trace| && Run(s, inputs).trace[..|s.trace|] == s.trace
    decreases |inputs|
  {
    if inputs != [] {
      var next := Step(s, inputs[0]);
      StepMonotone(s, inputs[0]);
      RunMonotone(next, inputs[1..]);
      assert Run(s, inputs).trace[..|s.trace|] == Run(s, inputs).trace[..|next.trace|][..|s.trace|];
    }
  }

  /**
   * Once the scope is stopped, no input renders again or fires `_bu`/`_u`:
   * all that can still happen is `_m` and `_um` callbacks.
   */
  lemma {:induction false} StopIsFinal(s: State, inputs: seq<Input>)
    requires s.stopped
    ensures var r := Run(s, inputs);
      && r.stopped && |r.trace| >= |s.trace| && r.trace[..|s.trace|] == s.trace
      && AllCalled(r.trace[|s.trace|..], {Mounted, Unmounted})
    decreases |inputs|
  {
    if inputs != [] {
      var next := Step(s, inputs[0]);
      var added := next.trace[|s.trace|..];
      assert AllCalled(added, {Mounted, Unmounted}) by {
        match inputs[0] {
          case Connected => assert added == Fire(Mounted, BucketOf(s.hooks, Mounted));
          case Disconnected => assert added == Fire(Unmounted, BucketOf(s.hooks, Unmounted));
          case AttributeWritten(_, _) => assert added == [];
          case Triggered => assert added == [];
        }
      }
      StopIsFinal(next, inputs[1..]);
      var r := Run(s, inputs);
      assert r.trace[..|next.trace|] == next.trace;
      assert r.trace[|s.trace|..] == added + r.trace[|next.trace|..];
    }
  }
}
