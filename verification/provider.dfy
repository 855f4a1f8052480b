/**
 * Providers declared by an environment descriptor, and references to them
 * from other parts of the descriptor.
 */
module Providers {
  import opened Wrappers
  import opened Validation
  import opened Components
  import opened MapOrder

  /** Stands for the back pointer from a provider to its environment. */
  datatype EnvironmentRef = EnvironmentRef(id: nat)

  /** Provider parameters, as built by the attribute factory. */
  type Attributes = map<string, string>

  /** A provider as declared in the descriptor. */
  datatype YamlProvider = YamlProvider(params: map<string, string>, repository: string, version: string)

  /** A reference to a provider as written in the descriptor. */
  datatype YamlRef = YamlRef(name: string, params: map<string, string>)

  datatype Provider = Provider(name: string, root: EnvironmentRef, component: Component, parameters: Attributes)

  /** A resolved reference; `provider` is None in the zero value. */
  datatype ProviderRef = ProviderRef(provider: Option<Provider>, parameters: Attributes)

  /** The zero value of a reference, returned when resolution fails. */
  const NoProviderRef := ProviderRef(None, map[])

  /** Builds a provider's component from its environment, its location in the
      descriptor, its repository and its version, together with the
      diagnostics it records. */
  type ComponentFactory = (EnvironmentRef, string, string, string) -> (Component, seq<ValidationError>)

  /** Builds attributes from descriptor parameters and optional parent attributes. */
  type AttributeFactory = (map<string, string>, Option<Attributes>) -> Attributes

  // ---------------------------------------------------------------------------
  // Accessors of a reference; the Go accessors dereference the provider pointer,
  // so each one needs a resolved reference.
  // ---------------------------------------------------------------------------

  function ProviderName(ref: ProviderRef): string
    requires ref.provider.Some?
  {
    ref.provider.value.name
  }

  function ComponentId(ref: ProviderRef): string
    requires ref.provider.Some?
  {
    ref.provider.value.component.id
  }

  function ProviderComponent(ref: ProviderRef): Component
    requires ref.provider.Some?
  {
    ref.provider.value.component
  }

  // ---------------------------------------------------------------------------
  // Creating the providers of an environment
  // ---------------------------------------------------------------------------

  /** The location of a declared provider in the descriptor. */
  function ProviderLocation(name: string): string {
    "providers." + name
  }

  /** The provider built for the declaration `y` named `name`. */
  function NewProvider(env: EnvironmentRef, name: string, y: YamlProvider,
                       createComponent: ComponentFactory, createAttributes: AttributeFactory): Provider
  {
    Provider(name, env, createComponent(env, ProviderLocation(name), y.repository, y.version).0,
             createAttributes(y.params, None))
  }

  /** The diagnostics recorded when the component of declaration `name` is built. */
  function DiagnosticsOf(env: EnvironmentRef, yaml: map<string, YamlProvider>, name: string,
                         createComponent: ComponentFactory): seq<ValidationError>
    requires name in yaml
  {
    createComponent(env, ProviderLocation(name), yaml[name].repository, yaml[name].version).1
  }

  /** The diagnostics of the declarations visited in `order`, in that order. */
  function ComponentDiagnostics(env: EnvironmentRef, yaml: map<string, YamlProvider>, order: seq<string>,
                                createComponent: ComponentFactory): seq<ValidationError>
    requires forall i :: 0 <= i < |order| ==> order[i] in yaml
    decreases |order|
  {
    if order == [] then []
    else
      var n := |order| - 1;
      ComponentDiagnostics(env, yaml, order[..n], createComponent) + DiagnosticsOf(env, yaml, order[n], createComponent)
  }

  /** `e` was recorded when building the component of some declared provider. */
  ghost predicate FromDeclaredComponent(env: EnvironmentRef, yaml: map<string, YamlProvider>, e: ValidationError,
                                        createComponent: ComponentFactory) {
    exists name :: name in yaml && e in DiagnosticsOf(env, yaml, name, createComponent)
  }

  /** Every diagnostic recorded while providers are built comes from building
      the component of some declared provider. */
  lemma {:induction false} ComponentDiagnosticsFrom(env: EnvironmentRef, yaml: map<string, YamlProvider>, order: seq<string>,
                                                    createComponent: ComponentFactory)
    requires forall i :: 0 <= i < |order| ==> order[i] in yaml
    ensures forall e :: e in ComponentDiagnostics(env, yaml, order, createComponent) ==>
              FromDeclaredComponent(env, yaml, e, createComponent)
    decreases |order|
  {
    if order != [] {
      var n := |order| - 1;
      ComponentDiagnosticsFrom(env, yaml, order[..n], createComponent);
      forall e | e in ComponentDiagnostics(env, yaml, order, createComponent)
        ensures FromDeclaredComponent(env, yaml, e, createComponent)
      {
        if e !in ComponentDiagnostics(env, yaml, order[..n], createComponent) {
          assert e in DiagnosticsOf(env, yaml, order[n], createComponent);
        }
      }
    }
  }

  /** The loop of CreateProviders: builds the providers of the declarations
      visited in `order` and appends their components' diagnostics. */
  method BuildProviders(ve: ValidationErrors, env: EnvironmentRef, yaml: map<string, YamlProvider>, order: seq<string>,
                        createComponent: ComponentFactory, createAttributes: AttributeFactory)
    returns (res: map<string, Provider>, out: ValidationErrors)
    requires forall i :: 0 <= i < |order| ==> order[i] in yaml
    ensures forall k :: 0 <= k < |order| ==> order[k] in res
    ensures forall name :: name in res ==>
              name in yaml && res[name] == NewProvider(env, name, yaml[name], createComponent, createAttributes)
    ensures out.errors == ve.errors + ComponentDiagnostics(env, yaml, order, createComponent)
  {
    res := map[];
    out := ve;
    var i := 0;
    while i < |order|
      invariant 0 <= i <= |order|
      invariant forall k :: 0 <= k < i ==> order[k] in res
      invariant forall name :: name in res ==>
                  name in yaml && res[name] == NewProvider(env, name, yaml[name], createComponent, createAttributes)
      invariant out.errors == ve.errors + ComponentDiagnostics(env, yaml, order[..i], createComponent)
    {
      var name := order[i];
      var built := createComponent(env, ProviderLocation(name), yaml[name].repository, yaml[name].version);
      assert order[..i + 1][..i] == order[..i];
      assert DiagnosticsOf(env, yaml, name, createComponent) == built.1;
      out := ValidationErrors(out.errors + built.1);
      res := res[name := Provider(name, env, built.0, createAttributes(yaml[name].params, None))];
      i := i + 1;
    }
    assert order[..i] == order;
  }

  /** Creates one provider per declaration, keyed by its name, visiting the
      declarations in `order`; an environment without any declaration records
      one error instead. */
  method CreateProviders(ve: ValidationErrors, env: EnvironmentRef, yaml: map<string, YamlProvider>, order: seq<string>,
                         createComponent: ComponentFactory, createAttributes: AttributeFactory)
    returns (res: map<string, Provider>, out: ValidationErrors)
    requires Enumerates(order, yaml.Keys)
    ensures Extends(out, ve)
    ensures |yaml| == 0 ==> res == map[]
    ensures |yaml| == 0 ==> out.errors == ve.errors + [ValidationError(Error, "no provider specified", "providers")]
    ensures res.Keys == yaml.Keys
    ensures forall name :: name in res ==>
              && res[name].name == name
              && res[name].root == env
              && res[name].component == createComponent(env, "providers." + name, yaml[name].repository, yaml[name].version).0
              && res[name].parameters == createAttributes(yaml[name].params, None)
    ensures |yaml| > 0 ==> out.errors == ve.errors + ComponentDiagnostics(env, yaml, order, createComponent)
  {
    if |yaml| == 0 {
      res := map[];
      out := AddError(ve, "no provider specified", "providers");
    } else {
      res, out := BuildProviders(ve, env, yaml, order, createComponent, createAttributes);
      assert forall name :: name in yaml ==> name in order;
    }
  }

  /** With at least one declaration, the "no provider specified" error is
      never recorded unless building some provider's component records it. */
  lemma CreateProvidersDiagnosticsFromComponents(ve: ValidationErrors, env: EnvironmentRef, yaml: map<string, YamlProvider>,
                                                 order: seq<string>, createComponent: ComponentFactory,
                                                 out: ValidationErrors)
    requires Enumerates(order, yaml.Keys)
    requires |yaml| > 0
    requires out.errors == ve.errors + ComponentDiagnostics(env, yaml, order, createComponent)
    ensures Extends(out, ve)
    ensures forall i :: |ve.errors| <= i < |out.errors| ==> FromDeclaredComponent(env, yaml, out.errors[i], createComponent)
  {
    ComponentDiagnosticsFrom(env, yaml, order, createComponent);
    forall i | |ve.errors| <= i < |out.errors|
      ensures FromDeclaredComponent(env, yaml, out.errors[i], createComponent)
    {
      assert out.errors[i] == ComponentDiagnostics(env, yaml, order, createComponent)[i - |ve.errors|];
    }
  }

  // ---------------------------------------------------------------------------
  // Creating a reference to a provider
  // ---------------------------------------------------------------------------

  /** Resolves the reference `yamlRef`, written at `location`, against the
      environment's providers, recording an error when the name is empty or
      unknown. */
  function CreateProviderRef(ve: ValidationErrors, providers: map<string, Provider>, location: string,
                             yamlRef: YamlRef, createAttributes: AttributeFactory): (r: (ProviderRef, ValidationErrors))
    ensures yamlRef.name == "" ==>
              r.0 == NoProviderRef
              && r.1.errors == ve.errors + [ValidationError(Error, "empty provider reference", location)]
    ensures yamlRef.name != "" && yamlRef.name !in providers ==>
              r.0 == NoProviderRef
              && r.1.errors == ve.errors + [ValidationError(Error, "unknown provider reference: " + yamlRef.name, location + ".name")]
    ensures yamlRef.name != "" && yamlRef.name in providers ==>
              r.1 == ve
              && r.0.provider == Some(providers[yamlRef.name])
              && r.0.parameters == createAttributes(yamlRef.params, Some(providers[yamlRef.name].parameters))
  {
    if |yamlRef.name| == 0 then
      (NoProviderRef, AddError(ve, "empty provider reference", location))
    else if yamlRef.name in providers then
      var val := providers[yamlRef.name];
      (ProviderRef(Some(val), createAttributes(yamlRef.params, Some(val.parameters))), ve)
    else
      (NoProviderRef, AddError(ve, "unknown provider reference: " + yamlRef.name, location + ".name"))
  }

  /** A reference resolves exactly when its name is non-empty and declared;
      it then denotes that provider, and otherwise exactly one error is
      recorded. Earlier diagnostics are never touched. */
  lemma CreateProviderRefResolves(ve: ValidationErrors, providers: map<string, Provider>, location: string,
                                  yamlRef: YamlRef, createAttributes: AttributeFactory)
    ensures var (ref, out) := CreateProviderRef(ve, providers, location, yamlRef, createAttributes);
      && Extends(out, ve)
      && (ref.provider.Some? <==> yamlRef.name != "" && yamlRef.name in providers)
      && (ref.provider.Some? ==>
            && |out.errors| == |ve.errors|
            && ProviderName(ref) == providers[yamlRef.name].name
            && ComponentId(ref) == providers[yamlRef.name].component.id
            && ProviderComponent(ref) == providers[yamlRef.name].component)
      && (ref.provider.None? ==> |out.errors| == |ve.errors| + 1 && out.errors[|ve.errors|].errorType == Error)
  {
  }

  /** The accumulator reports an error after resolution iff it did before or
      the reference failed to resolve. */
  lemma CreateProviderRefReportsError(ve: ValidationErrors, providers: map<string, Provider>, location: string,
                                      yamlRef: YamlRef, createAttributes: AttributeFactory)
    ensures var (ref, out) := CreateProviderRef(ve, providers, location, yamlRef, createAttributes);
      Reports(out, Error) <==> Reports(ve, Error) || ref.provider.None?
  {
  }

  /** Against providers keyed by their own names, as CreateProviders builds
      them, a resolved reference names exactly the provider it was written
      with. */
  lemma CreateProviderRefNameRoundTrip(ve: ValidationErrors, providers: map<string, Provider>, location: string,
                                       yamlRef: YamlRef, createAttributes: AttributeFactory)
    requires forall name :: name in providers ==> providers[name].name == name
    ensures var ref := CreateProviderRef(ve, providers, location, yamlRef, createAttributes).0;
      ref.provider.Some? ==> ProviderName(ref) == yamlRef.name
  {
  }
}
