/** `appBind` and `appInstance`: a binding registered with the container
    for a signature. The container itself is not modelled; a `Binding`
    holds what the registered closure captures, and `Resolve` is one call
    of that closure by the container. */
module Bindings {
  import opened PhpArrays
  import opened BetterBind
  import opened Binder

  /** What reflection tells about a class: its constructor's parameters,
      or `None` when it has no constructor. */
  datatype ClassInfo = ClassInfo(ctor: Option<seq<Param>>)

  /** One resolution: the factory's result, or the failed assertion. */
  datatype Resolution<T> = Resolved(instance: T) | AssertionFailed(kind: FailKind, message: string)

  class Binding<T> {
    /** The signature the binding is registered under. */
    const signature: string
    /** `Some` exactly when the signature names an existing class. */
    const classInfo: Option<ClassInfo>
    /** The test's closure; the container's `$app` argument is left out. */
    const factory: Params -> T
    /** The handle `appBind` returns to the test. */
    const binder: BetterBinder

    /** `appBind`: registers the wrapper around `factory` with a fresh
        binder that ignores nothing yet. */
    constructor AppBind(signature: string, classInfo: Option<ClassInfo>, factory: Params -> T)
      ensures this.signature == signature && this.classInfo == classInfo && this.factory == factory
      ensures fresh(binder) && binder.ignoreParameters == []
    {
      this.signature := signature;
      this.classInfo := classInfo;
      this.factory := factory;
      binder := new BetterBinder();
    }

    /** One resolution. The supplied parameters are copied to `caught` first,
        so the test sees them whether or not validation fails; validation
        runs only when the signature names a class, with the binder's ignore
        list as it stands at resolution time; otherwise, and when validation
        passes, the factory's result is returned unchanged. */
    method Resolve(params: Params) returns (caught: Params, r: Resolution<T>)
      ensures caught == params
      ensures classInfo.None? ==> r == Resolved(factory(params))
      ensures classInfo.Some? ==>
        var v := Validate(signature, classInfo.value.ctor, params, binder.ignoreParameters);
        (r.Resolved? <==> v == Pass) &&
        (r.Resolved? ==> r.instance == factory(params)) &&
        (r.AssertionFailed? ==> v == Fail(r.kind, r.message))
    {
      caught := params;
      if classInfo.Some? {
        var ignore := binder.GetIgnoreParameters();
        var outcome := AssertParamsMatchConstructor(signature, classInfo.value.ctor, params, ignore);
        if outcome.Fail? {
          return caught, AssertionFailed(outcome.kind, outcome.message);
        }
      }
      r := Resolved(factory(params));
    }
  }

  /** `appInstance`: `appBind` with a factory that always yields `instance`. */
  method AppInstance<T>(signature: string, classInfo: Option<ClassInfo>, instance: T) returns (b: Binding<T>)
    ensures fresh(b) && fresh(b.binder) && b.binder.ignoreParameters == []
    ensures b.signature == signature && b.classInfo == classInfo
    ensures forall p :: b.factory(p) == instance
  {
    b := new Binding.AppBind(signature, classInfo, (p: Params) => instance);
  }

  /** A resolution of an `appInstance` binding that passes validation yields
      the fixed instance, for every parameter map. */
  method ResolveInstance<T>(signature: string, classInfo: Option<ClassInfo>, instance: T, params: Params)
    returns (caught: Params, r: Resolution<T>)
    ensures caught == params
    ensures classInfo.None? ==> r == Resolved(instance)
    ensures classInfo.Some? ==>
      (r.Resolved? <==> Validate(signature, classInfo.value.ctor, params, []) == Pass)
    ensures r.Resolved? ==> r.instance == instance
  {
    var b := AppInstance(signature, classInfo, instance);
    caught, r := b.Resolve(params);
  }
}

/** The source's test scenarios, replayed against the model. `INeedParams`
    is a class whose constructor requires `first_param` and has an optional
    `second_param`; `INeedNoParams` is a class without a constructor; `x` is
    no class at all. */
module BindingScenarios {
  import opened PhpArrays
  import opened BetterBind
  import opened Bindings

  /** `INeedParams` and a binding for it whose factory yields `instance`. */
  method NewHeadfulBinding(instance: Value) returns (b: Binding<Value>)
    ensures fresh(b) && fresh(b.binder) && b.binder.ignoreParameters == []
    ensures b.signature == "INeedParams"
    ensures b.classInfo == Some(ClassInfo(Some([Param("first_param", false), Param("second_param", true)])))
    ensures forall p :: b.factory(p) == instance
  {
    var ctor := [Param("first_param", false), Param("second_param", true)];
    b := new Binding.AppBind("INeedParams", Some(ClassInfo(Some(ctor))), (p: Params) => instance);
  }

  method NonsenseWordNoParams()
  {
    var b := new Binding.AppBind("x", None, (p: Params) => Object(1));
    var caught, r := b.Resolve([]);
    assert r == Resolved(Object(1)) && |caught| == 0;
  }

  method NonsenseWordAndParams()
  {
    var b := new Binding.AppBind("x", None, (p: Params) => Object(1));
    var caught, r := b.Resolve([("y", Str("z"))]);
    assert r == Resolved(Object(1));
    assert Lookup(caught, "y") == Some(Str("z")) && |caught| == 1;
  }

  method HeadlessClassNoParams()
  {
    var b := new Binding.AppBind("INeedNoParams", Some(ClassInfo(None)), (p: Params) => Object(1));
    var caught, r := b.Resolve([]);
    assert r == Resolved(Object(1)) && |caught| == 0;
  }

  method AllParamsResolve()
  {
    var b := NewHeadfulBinding(Object(1));
    var both := [("first_param", Int(123)), ("second_param", Int(456))];
    assert IsSet(both, "first_param");
    assert Unset(both, "first_param") == [("second_param", Int(456))];
    var caught, r := b.Resolve(both);
    assert r == Resolved(Object(1)) && caught == both;
  }

  method OptionalParamMayBeLeftOut()
  {
    var b := NewHeadfulBinding(Object(1));
    var one := [("first_param", Int(123))];
    assert IsSet(one, "first_param");
    var caught, r := b.Resolve(one);
    assert r == Resolved(Object(1)) && caught == one;
  }

  method RequiredParamReported()
  {
    var b := NewHeadfulBinding(Object(1));
    var caught, r := b.Resolve([]);
    assert r == AssertionFailed(RequiredMissing, RequiredMessage("first_param", "INeedParams"));
    assert Infix("INeedParams", r.message) && Infix("Required parameter", r.message);
    assert caught == [];
  }

  /** The array steps of `testBindHeadfulClassWithTooManyParams`: the
      required name is set, and after both declared names are unset only
      `failure_param` is left. */
  lemma TooManyParamsLeftover()
    ensures IsSet([("first_param", Int(123)), ("second_param", Int(456)), ("failure_param", Int(789))], "first_param")
    ensures Unset([("first_param", Int(123)), ("second_param", Int(456)), ("failure_param", Int(789))], "first_param")
      == [("second_param", Int(456)), ("failure_param", Int(789))]
    ensures Unset([("second_param", Int(456)), ("failure_param", Int(789))], "second_param") == [("failure_param", Int(789))]
    ensures Keys([("failure_param", Int(789))]) == ["failure_param"]
  {
    var three: Params := [("first_param", Int(123)), ("second_param", Int(456)), ("failure_param", Int(789))];
    assert three[1..] == [("second_param", Int(456)), ("failure_param", Int(789))];
  }

  /** The outcome `testBindHeadfulClassWithTooManyParams` expects. */
  lemma TooManyParamsOutcome()
    ensures Validate("INeedParams", Some([Param("first_param", false), Param("second_param", true)]),
                     [("first_param", Int(123)), ("second_param", Int(456)), ("failure_param", Int(789))], [])
      == Fail(ExtraParameters, ExtraMessage("INeedParams", ["failure_param"]))
  {
    TooManyParamsLeftover();
    TooManyParamsLastStep();
    TooManyParamsSecondStep();
  }

  lemma TooManyParamsLastStep()
    ensures Walk("INeedParams", [], [("failure_param", Int(789))], []) == Fail(ExtraParameters, ExtraMessage("INeedParams", ["failure_param"]))
  {
    TooManyParamsLeftover();
  }

  lemma TooManyParamsSecondStep()
    ensures Walk("INeedParams", [Param("second_param", true)], [("second_param", Int(456)), ("failure_param", Int(789))], [])
      == Walk("INeedParams", [], [("failure_param", Int(789))], [])
  {
    TooManyParamsLeftover();
  }

  method ExtraParamReported()
  {
    var b := NewHeadfulBinding(Object(1));
    var three := [("first_param", Int(123)), ("second_param", Int(456)), ("failure_param", Int(789))];
    TooManyParamsOutcome();
    var caught, r := b.Resolve(three);
    assert r == AssertionFailed(ExtraParameters, ExtraMessage("INeedParams", ["failure_param"]));
    assert Infix("INeedParams", r.message) && Infix(Quote("failure_param"), r.message);
    assert caught == three;
  }

  /** Not one of the source's tests: an ignored required parameter may be
      left out. */
  method IgnoredParamNotRequired()
  {
    var b := NewHeadfulBinding(Object(1));
    var same := b.binder.IgnoreParameters([List([Str("first_param")])]);
    var caught, r := b.Resolve([]);
    assert r == Resolved(Object(1));
  }

  /** Not one of the source's tests: `ignoreParameters(true)` exempts every
      parameter, because `in_array` compares loosely. */
  method TrueIgnoresEveryParameter()
  {
    var b := NewHeadfulBinding(Object(1));
    var same := b.binder.IgnoreParameters([Bool(true)]);
    var caught, r := b.Resolve([]);
    assert r == Resolved(Object(1));
  }

  method HeadlessClassWithParamsFails()
  {
    var b := new Binding.AppBind("INeedNoParams", Some(ClassInfo(None)), (p: Params) => Object(1));
    var caught, r := b.Resolve([("y", Str("z"))]);
    assert r == AssertionFailed(NoConstructor, NoConstructorMessage("INeedNoParams"));
    assert Infix("INeedNoParams", r.message) && Infix("no constructor", r.message);
    assert caught == [("y", Str("z"))];
  }

  method NonClassSignatureNeverValidates()
  {
    var b := AppInstance("x", None, Object(1));
    var caught, r := b.Resolve([("y", Str("z"))]);
    assert r == Resolved(Object(1)) && caught == [("y", Str("z"))];
  }
}
