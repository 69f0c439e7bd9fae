/**
 * The PureShell dispatch layer: a stateful entity exposes methods whose
 * implementation is a pure function, found by name on an instance-level
 * override or on the entity class's default provider, fed with the current
 * values of named fields ("live attributes") followed by the caller's
 * arguments, and whose result is either returned or written back into the
 * first live attribute.
 *
 * The model is generic in the type `V` of the values an entity holds and
 * its pure functions take and return.
 */
module PureShell {
  import opened Wrappers
  import opened Enforcement

  // ---------------------------------------------------------------------------
  // Pure functions, providers and bindings
  // ---------------------------------------------------------------------------

  /** What calling a pure function yields: a value, or an exception it raised. */
  datatype Return<V> = Returned(value: V) | Raised(exception: string)

  /** A pure function called with positional arguments. */
  type Fn<!V> = seq<V> -> Return<V>

  /** The `func_or_name` of a binding: the function itself, or its name on a provider. */
  datatype Target<!V> = Direct(fn: Fn<V>) | Named(name: string)

  /** A rules provider (a Ruleset class or one of its instances): its class name and its functions by name. */
  datatype Provider<!V> = Provider(name: string, fns: map<string, Fn<V>>)

  /** The `live_attr_names` argument: one name, or a tuple of names. */
  datatype AttrSpec = Single(name: string) | Several(names: seq<string>)

  /** A `PureShellMethod` descriptor: its target, its live attribute names and its `mutates` flag. */
  datatype Binding<!V> = Binding(funcOrName: Target<V>, liveAttrNames: seq<string>, mutates: bool)

  /** The `wrapper` `__get__` hands out: the resolved function plus the descriptor's settings. */
  datatype BoundMethod<!V> = BoundMethod(fn: Fn<V>, liveAttrNames: seq<string>, mutates: bool)

  /** Everything a bound call can raise. */
  datatype ShellError =
    | RulesetProviderError(entityClass: string, target: string)            // no provider at either tier
    | PureFunctionError(target: string, provider: string, entityClass: string) // provider lacks the name
    | LiveAttributeError(attr: string, entityClass: string)                // a live attribute is absent
    | IndexError                                                           // mutating binding with no live attribute
    | RuleRaised(exception: string)                                        // the pure function itself raised

  /** The three kinds derived from `PureShellError`. */
  predicate IsPureShellError(e: ShellError) {
    e.RulesetProviderError? || e.PureFunctionError? || e.LiveAttributeError?
  }

  /** `PureShellMethod.__init__`: a single string becomes a one-element tuple. */
  function NewPureShellMethod<V>(funcOrName: Target<V>, liveAttrNames: AttrSpec, mutates: bool): (b: Binding<V>)
    ensures b.funcOrName == funcOrName && b.mutates == mutates
    ensures liveAttrNames.Single? ==> b.liveAttrNames == [liveAttrNames.name]
    ensures liveAttrNames.Several? ==> b.liveAttrNames == liveAttrNames.names
  {
    var names := match liveAttrNames
      case Single(n) => [n]
      case Several(ns) => ns;
    Binding(funcOrName, names, mutates)
  }

  /** Python truthiness of a `pure_func` argument: a function is truthy, a name unless it is empty. */
  predicate Truthy<V>(t: Target<V>) {
    t.Direct? || t.name != ""
  }

  /**
   * `shell_method(live_attr_names, pure_func, mutates)` applied to a
   * placeholder method called `methodName`: the target is `pure_func or
   * methodName`, so a missing or empty-string `pure_func` means the
   * method's own name.
   */
  function ShellMethod<V>(liveAttrNames: AttrSpec, pureFunc: Option<Target<V>>, mutates: bool,
                          methodName: string): (b: Binding<V>)
    ensures pureFunc.None? || !Truthy(pureFunc.value) ==> b.funcOrName == Named(methodName)
    ensures pureFunc.Some? && Truthy(pureFunc.value) ==> b.funcOrName == pureFunc.value
    ensures b == NewPureShellMethod(b.funcOrName, liveAttrNames, mutates)
  {
    var funcOrName := if pureFunc.Some? && Truthy(pureFunc.value) then pureFunc.value else Named(methodName);
    NewPureShellMethod(funcOrName, liveAttrNames, mutates)
  }

  // ---------------------------------------------------------------------------
  // Resolution (`PureShellMethod.__get__`)
  // ---------------------------------------------------------------------------

  /** The provider a name-based lookup consults: the override when it is not None, else the class default. */
  function ActiveProvider<V>(instanceRules: Option<Provider<V>>, classRules: Option<Provider<V>>): (p: Option<Provider<V>>)
    ensures instanceRules.Some? ==> p == instanceRules
    ensures instanceRules.None? ==> p == classRules
  {
    if instanceRules.Some? then instanceRules else classRules
  }

  /** `getattr(rules_source, name)`, failing with `PureFunctionError`. */
  function FindIn<V>(p: Provider<V>, name: string, entityClass: string): (r: Result<Fn<V>, ShellError>)
    ensures r.Ok? <==> name in p.fns
    ensures r.Ok? ==> r.value == p.fns[name]
    ensures r.Err? ==> r.error == PureFunctionError(name, p.name, entityClass)
  {
    if name in p.fns then Ok(p.fns[name]) else Err(PureFunctionError(name, p.name, entityClass))
  }

  /**
   * The function a binding resolves to on an instance of `entityClass`
   * (pureshell/__init__.py:105-146).
   */
  function Resolve<V>(funcOrName: Target<V>, instanceRules: Option<Provider<V>>,
                      classRules: Option<Provider<V>>, entityClass: string): (r: Result<Fn<V>, ShellError>)
    // a function given directly bypasses resolution
    ensures funcOrName.Direct? ==> r == Ok(funcOrName.fn)
    // no provider at either tier is the provider error, and only that is
    ensures funcOrName.Named? && instanceRules.None? && classRules.None? ==>
      r == Err(RulesetProviderError(entityClass, funcOrName.name))
    ensures r.Err? && r.error.RulesetProviderError? ==>
      funcOrName.Named? && instanceRules.None? && classRules.None?
    // otherwise the active provider decides alone: found, or the pure-function error naming it
    ensures funcOrName.Named? && ActiveProvider(instanceRules, classRules).Some? ==>
      var p := ActiveProvider(instanceRules, classRules).value;
      && (r.Ok? <==> funcOrName.name in p.fns)
      && (r.Ok? ==> r.value == p.fns[funcOrName.name])
      && (r.Err? ==> r.error == PureFunctionError(funcOrName.name, p.name, entityClass))
    ensures r.Err? ==> IsPureShellError(r.error)
  {
    match funcOrName
    case Direct(fn) => Ok(fn)
    case Named(name) =>
      if instanceRules.Some? then FindIn(instanceRules.value, name, entityClass)
      else if classRules.Some? then FindIn(classRules.value, name, entityClass)
      else Err(RulesetProviderError(entityClass, name))
  }

  /** A non-None override that has the name wins, even when the class default has it too. */
  lemma OverrideWins<V>(p: Provider<V>, classRules: Option<Provider<V>>, name: string, entityClass: string)
    requires name in p.fns
    ensures Resolve(Named(name), Some(p), classRules, entityClass) == Ok(p.fns[name])
  {
  }

  /** An override that lacks the name is an error; the class default is not consulted. */
  lemma NoFallthroughToClassDefault<V>(p: Provider<V>, q: Provider<V>, name: string, entityClass: string)
    requires name !in p.fns && name in q.fns
    ensures Resolve(Named(name), Some(p), Some(q), entityClass) == Err(PureFunctionError(name, p.name, entityClass))
  {
  }

  // ---------------------------------------------------------------------------
  // The entity as the dispatcher sees it
  // ---------------------------------------------------------------------------

  /** An entity's class name, its class's `_rules`, its `_instance_rules` and its fields. */
  datatype EntityView<!V> = EntityView(entityClass: string, classRules: Option<Provider<V>>,
                                      instanceRules: Option<Provider<V>>, fields: map<string, V>)

  /** Attribute access `entity.method`: resolution happens here, before any live attribute is read. */
  function Lookup<V>(e: EntityView<V>, b: Binding<V>): (r: Result<BoundMethod<V>, ShellError>)
    // fails exactly when resolution fails, with resolution's error
    ensures r.Ok? <==> Resolve(b.funcOrName, e.instanceRules, e.classRules, e.entityClass).Ok?
    ensures r.Err? ==> r.error == Resolve(b.funcOrName, e.instanceRules, e.classRules, e.entityClass).error
    // the wrapper carries the resolved function and the descriptor's own settings
    ensures r.Ok? ==> r.value == BoundMethod(Resolve(b.funcOrName, e.instanceRules, e.classRules, e.entityClass).value,
                                             b.liveAttrNames, b.mutates)
  {
    match Resolve(b.funcOrName, e.instanceRules, e.classRules, e.entityClass)
    case Err(err) => Err(err)
    case Ok(fn) => Ok(BoundMethod(fn, b.liveAttrNames, b.mutates))
  }

  /** Looking a binding up reads no field: the fields only matter once the wrapper is called. */
  lemma LookupIgnoresFields<V>(e: EntityView<V>, fields: map<string, V>, b: Binding<V>)
    ensures Lookup(e.(fields := fields), b) == Lookup(e, b)
  {
  }

  /**
   * The values of the live attributes, in declared order, or the
   * `LiveAttributeError` for the first one that is absent.
   */
  function LiveValues<V>(fields: map<string, V>, names: seq<string>, entityClass: string): (r: Result<seq<V>, ShellError>)
    ensures r.Ok? <==> forall i :: 0 <= i < |names| ==> names[i] in fields
    ensures r.Ok? ==> |r.value| == |names| && forall i :: 0 <= i < |names| ==> r.value[i] == fields[names[i]]
    ensures r.Err? ==> exists k :: FirstMissing(fields, names, k)
                                   && r.error == LiveAttributeError(names[k], entityClass)
  {
    if |names| == 0 then Ok([])
    else if names[0] !in fields then
      assert FirstMissing(fields, names, 0);
      Err(LiveAttributeError(names[0], entityClass))
    else
      MissingShifts(fields, names);
      match LiveValues(fields, names[1..], entityClass)
      case Err(err) => Err(err)
      case Ok(rest) => Ok([fields[names[0]]] + rest)
  }

  /** `k` is the first declared live attribute that the entity lacks. */
  ghost predicate FirstMissing<V>(fields: map<string, V>, names: seq<string>, k: int) {
    0 <= k < |names| && names[k] !in fields && forall j :: 0 <= j < k ==> names[j] in fields
  }

  lemma MissingShifts<V>(fields: map<string, V>, names: seq<string>)
    requires |names| > 0 && names[0] in fields
    ensures forall k :: FirstMissing(fields, names[1..], k) ==> FirstMissing(fields, names, k + 1)
  {
    assert forall i :: 1 <= i < |names| ==> names[i] == names[1..][i - 1];
  }

  /** Only one position can be the first missing one. */
  lemma FirstMissingUnique<V>(fields: map<string, V>, names: seq<string>, i: int)
    requires FirstMissing(fields, names, i)
    ensures forall k :: FirstMissing(fields, names, k) ==> k == i
  {
  }

  /** The outcome of a call and the entity's fields afterwards. */
  datatype CallOutcome<V> = CallOutcome(result: Result<Option<V>, ShellError>, fields: map<string, V>)

  /**
   * Calling the wrapper (pureshell/__init__.py:148-184, synchronous path):
   * read the live attributes, call the function with them followed by
   * `args`, then return its result or store it into the first live attribute
   * and return None.
   */
  function CallBound<V>(fields: map<string, V>, entityClass: string, w: BoundMethod<V>, args: seq<V>): (c: CallOutcome<V>)
    // a call succeeds exactly when every live attribute is there, the function returns,
    // and a mutating binding has a first live attribute to write
    ensures c.result.Ok? <==>
      && LiveValues(fields, w.liveAttrNames, entityClass).Ok?
      && w.fn(LiveValues(fields, w.liveAttrNames, entityClass).value + args).Returned?
      && (w.mutates ==> |w.liveAttrNames| > 0)
    // a failed call writes nothing
    ensures c.result.Err? ==> c.fields == fields
    // a missing live attribute is reported before the function is called
    ensures LiveValues(fields, w.liveAttrNames, entityClass).Err? ==>
      c.result == Err(LiveValues(fields, w.liveAttrNames, entityClass).error)
    // non-mutating: the function's value, unchanged, and no write
    ensures c.result.Ok? && !w.mutates ==>
      c.result.value == Some(w.fn(LiveValues(fields, w.liveAttrNames, entityClass).value + args).value)
      && c.fields == fields
    // mutating: None, the first live attribute holds the value, and nothing else changes
    ensures c.result.Ok? && w.mutates ==>
      && c.result.value == None
      && c.fields.Keys == fields.Keys
      && c.fields[w.liveAttrNames[0]] == w.fn(LiveValues(fields, w.liveAttrNames, entityClass).value + args).value
      && forall k :: k in fields && k != w.liveAttrNames[0] ==> c.fields[k] == fields[k]
  {
    match LiveValues(fields, w.liveAttrNames, entityClass)
    case Err(err) => CallOutcome(Err(err), fields)
    case Ok(live) =>
      match w.fn(live + args)
      case Raised(x) => CallOutcome(Err(RuleRaised(x)), fields)
      case Returned(v) =>
        if !w.mutates then CallOutcome(Ok(Some(v)), fields)
        else if |w.liveAttrNames| == 0 then CallOutcome(Err(IndexError), fields)
        else CallOutcome(Ok(None), fields[w.liveAttrNames[0] := v])
  }

  /** The live values come first, in declared order, then the caller's arguments in order. */
  lemma ArgumentOrder<V>(fields: map<string, V>, names: seq<string>, entityClass: string, args: seq<V>)
    requires LiveValues(fields, names, entityClass).Ok?
    ensures var a := LiveValues(fields, names, entityClass).value + args;
      && |a| == |names| + |args|
      && (forall i :: 0 <= i < |names| ==> a[i] == fields[names[i]])
      && (forall j :: 0 <= j < |args| ==> a[|names| + j] == args[j])
  {
  }

  /** When a live attribute is missing, which function is bound makes no difference: it is never called. */
  lemma MissingLiveAttributeSkipsFunction<V>(fields: map<string, V>, entityClass: string,
                                             w1: BoundMethod<V>, w2: BoundMethod<V>, args: seq<V>)
    requires w1.liveAttrNames == w2.liveAttrNames && w1.mutates == w2.mutates
    requires exists i :: 0 <= i < |w1.liveAttrNames| && w1.liveAttrNames[i] !in fields
    ensures CallBound(fields, entityClass, w1, args) == CallBound(fields, entityClass, w2, args)
    ensures CallBound(fields, entityClass, w1, args).fields == fields
  {
  }

  /** `entity.method(*args)`: look up, then call. */
  function Dispatch<V>(e: EntityView<V>, b: Binding<V>, args: seq<V>): (c: CallOutcome<V>)
    // resolution errors come first, whatever the fields hold, and write nothing
    ensures Resolve(b.funcOrName, e.instanceRules, e.classRules, e.entityClass).Err? ==>
      c == CallOutcome(Err(Resolve(b.funcOrName, e.instanceRules, e.classRules, e.entityClass).error), e.fields)
    ensures Resolve(b.funcOrName, e.instanceRules, e.classRules, e.entityClass).Ok? ==>
      c == CallBound(e.fields, e.entityClass,
                     BoundMethod(Resolve(b.funcOrName, e.instanceRules, e.classRules, e.entityClass).value,
                                 b.liveAttrNames, b.mutates), args)
  {
    match Lookup(e, b)
    case Err(err) => CallOutcome(Err(err), e.fields)
    case Ok(w) => CallBound(e.fields, e.entityClass, w, args)
  }

  /** A call changes at most one field, the first live attribute, and only by a mutating binding. */
  lemma DispatchWritesAtMostFirstAttribute<V>(e: EntityView<V>, b: Binding<V>, args: seq<V>)
    ensures var c := Dispatch(e, b, args);
      && c.fields.Keys == e.fields.Keys
      && (forall k :: k in e.fields && (!b.mutates || |b.liveAttrNames| == 0 || k != b.liveAttrNames[0])
                      ==> c.fields[k] == e.fields[k])
      && (b.mutates && c.result.Ok? ==> c.result.value.None?)
  {
  }

  /**
   * With no provider anywhere, a name-based call fails with the provider
   * error even when its live attributes are missing too.
   */
  lemma ProviderErrorBeforeLiveAttributes<V>(e: EntityView<V>, b: Binding<V>, args: seq<V>)
    requires b.funcOrName.Named? && e.instanceRules.None? && e.classRules.None?
    ensures Dispatch(e, b, args) == CallOutcome(Err(RulesetProviderError(e.entityClass, b.funcOrName.name)), e.fields)
  {
  }

  // ---------------------------------------------------------------------------
  // Classes and instances
  // ---------------------------------------------------------------------------

  /** A StatefulEntity subclass: its name and its class-level `_rules`, shared by all its instances. */
  class EntityType<V> {
    const name: string
    var rules: Option<Provider<V>>

    constructor (name: string)
      ensures this.name == name && rules == None
    {
      this.name := name;
      rules := None;
    }
  }

  /** `class Name(StatefulEntity): ...` — the declaration succeeds only if the entity check passes. */
  method DeclareStatefulEntity<V>(name: string, members: seq<Member>) returns (r: Result<EntityType<V>, DeclError>)
    ensures r.Err? <==> EntityCheck(name, members).Some?
    ensures r.Err? ==> r.error == EntityCheck(name, members).value
    ensures r.Ok? ==> fresh(r.value) && r.value.name == name && r.value.rules == None
  {
    var check := EntityCheck(name, members);
    if check.Some? {
      r := Err(check.value);
    } else {
      var t := new EntityType<V>(name);
      r := Ok(t);
    }
  }

  /** Every function a provider exposes is a staticmethod of its class body under the same name. */
  predicate ExposesStaticMethods<V>(members: seq<Member>, fns: map<string, Fn<V>>) {
    forall n :: n in fns ==> exists i :: 0 <= i < |members| && members[i].name == n && members[i].kind.StaticMethod?
  }

  /** `class Name(Ruleset): ...` — a provider of the given functions, if the Ruleset check passes. */
  function DeclareRuleset<V>(name: string, members: seq<Member>, fns: map<string, Fn<V>>): (r: Result<Provider<V>, DeclError>)
    requires ExposesStaticMethods(members, fns)
    ensures r.Ok? <==> forall i :: 0 <= i < |members| ==> RulesetAccepts(members[i])
    ensures r.Ok? ==> r.value == Provider(name, fns)
    ensures r.Err? ==> exists k :: FirstRulesetOffender(members, k) && r.error == NonStaticMember(name, members[k].name)
  {
    match RulesetCheck(name, members)
    case Some(err) => Err(err)
    case None => Ok(Provider(name, fns))
  }

  /** `@ruleset_provider(R)` on an entity class: sets its `_rules` to R and returns the same class. */
  method RulesetProvider<V>(rulesCls: Provider<V>, entityCls: EntityType<V>) returns (r: EntityType<V>)
    modifies entityCls
    ensures r == entityCls && entityCls.rules == Some(rulesCls)
  {
    entityCls.rules := Some(rulesCls);
    r := entityCls;
  }

  /** An instance of a StatefulEntity subclass. */
  class Entity<V> {
    const cls: EntityType<V>
    var fields: map<string, V>
    var instanceRules: Option<Provider<V>>

    /** `StatefulEntity.__init__(initial_state, ruleset_instance)`. */
    constructor (cls: EntityType<V>, initialState: map<string, V>, rulesetInstance: Option<Provider<V>>)
      ensures this.cls == cls && fields == initialState && instanceRules == rulesetInstance
    {
      this.cls := cls;
      fields := map[];
      instanceRules := None;
      new;
      var pending := initialState.Keys;
      while pending != {}
        invariant pending <= initialState.Keys
        invariant fields.Keys == initialState.Keys - pending
        invariant forall k :: k in fields ==> fields[k] == initialState[k]
        invariant instanceRules == None
        decreases pending
      {
        var key :| key in pending;
        fields := fields[key := initialState[key]];
        pending := pending - {key};
      }
      assert fields == initialState;
      if rulesetInstance.Some? {
        instanceRules := rulesetInstance;
      }
    }

    /** What the dispatcher sees of this entity. */
    function View(): EntityView<V>
      reads this, cls
    {
      EntityView(cls.name, cls.rules, instanceRules, fields)
    }

    /** `setattr(self, name, value)` from application code. */
    method SetField(name: string, value: V)
      modifies this
      ensures fields == old(fields)[name := value] && instanceRules == old(instanceRules)
    {
      fields := fields[name := value];
    }

    /** `self._instance_rules = rules`, at construction or later. */
    method SetInstanceRules(rules: Option<Provider<V>>)
      modifies this
      ensures instanceRules == rules && fields == old(fields)
    {
      instanceRules := rules;
    }

    /** `PureShellMethod.__get__(self, ...)`: resolution at attribute access. */
    function Get(b: Binding<V>): (r: Result<BoundMethod<V>, ShellError>)
      reads this, cls
      ensures r.Ok? <==> Resolve(b.funcOrName, instanceRules, cls.rules, cls.name).Ok?
      ensures r.Err? ==> r.error == Resolve(b.funcOrName, instanceRules, cls.rules, cls.name).error
      ensures r.Ok? ==> r.value == BoundMethod(Resolve(b.funcOrName, instanceRules, cls.rules, cls.name).value,
                                               b.liveAttrNames, b.mutates)
    {
      Lookup(View(), b)
    }

    /** The wrapper's loop collecting `live_data_values` (pureshell/__init__.py:154-159). */
    method GatherLiveValues(names: seq<string>) returns (r: Result<seq<V>, ShellError>)
      ensures r == LiveValues(fields, names, cls.name)
    {
      var liveDataValues: seq<V> := [];
      var i := 0;
      while i < |names|
        invariant 0 <= i <= |names|
        invariant forall j :: 0 <= j < i ==> names[j] in fields
        invariant |liveDataValues| == i
        invariant forall j :: 0 <= j < i ==> liveDataValues[j] == fields[names[j]]
      {
        var name := names[i];
        if name !in fields {
          FirstMissingUnique(fields, names, i);
          ghost var expected := LiveValues(fields, names, cls.name);
          assert expected.Err?;
          ghost var k :| FirstMissing(fields, names, k) && expected.error == LiveAttributeError(names[k], cls.name);
          assert k == i;
          return Err(LiveAttributeError(name, cls.name));
        }
        liveDataValues := liveDataValues + [fields[name]];
        i := i + 1;
      }
      assert liveDataValues == LiveValues(fields, names, cls.name).value;
      r := Ok(liveDataValues);
    }

    /** Calling a wrapper obtained from `Get` on this entity. */
    method CallBoundMethod(w: BoundMethod<V>, args: seq<V>) returns (r: Result<Option<V>, ShellError>)
      modifies this
      ensures CallOutcome(r, fields) == CallBound(old(fields), cls.name, w, args)
      ensures instanceRules == old(instanceRules)
    {
      var live := GatherLiveValues(w.liveAttrNames);
      if live.Err? {
        return Err(live.error);
      }
      var result := w.fn(live.value + args);
      if result.Raised? {
        return Err(RuleRaised(result.exception));
      }
      if w.mutates {
        if |w.liveAttrNames| == 0 {
          return Err(IndexError);
        }
        fields := fields[w.liveAttrNames[0] := result.value];
        r := Ok(None);
      } else {
        r := Ok(Some(result.value));
      }
    }

    /** `entity.method(*args)`: `Get` then `CallBoundMethod`. */
    method Invoke(b: Binding<V>, args: seq<V>) returns (r: Result<Option<V>, ShellError>)
      modifies this
      ensures CallOutcome(r, fields) == Dispatch(old(View()), b, args)
      ensures instanceRules == old(instanceRules)
    {
      var w := Get(b);
      if w.Err? {
        return Err(w.error);
      }
      r := CallBoundMethod(w.value, args);
    }
  }
}
