/**
 * The flows `SymbolicExpressionBackend` declares when it is constructed, and
 * the two of them it keeps: the `write` flow and the default `ip` flow.
 *
 * `register_flow` belongs to the flow registry, outside this model; it
 * becomes a parameter `register` that maps a declaration to the identifier
 * the registry hands back (`None` when it hands back `None`). The registry's
 * table is represented only by the declarations the backend makes, in the
 * order it makes them.
 */
module Flows {
  import opened Wrappers

  /** A flow identifier as the registry returns it. */
  type FlowId = string

  /** The name the backend passes to its base class and to every declaration. */
  const BackendName: string := "SymbolicExpression"

  /**
   * The passes of a declared flow: a literal list, the backend's bound
   * `_get_layer_templates` method handed over unevaluated, or `None`.
   */
  datatype Passes = PassList(names: seq<string>) | LayerTemplates | NoPasses

  /** One call of `register_flow(name, passes, requires=…, backend=…)`. */
  datatype Declaration = Declaration(name: string, passes: Passes, requirements: Option<seq<FlowId>>, backend: string)

  /** Python truthiness of a registry result: neither `None` nor the empty string. */
  predicate Truthy(id: Option<FlowId>)
  {
    id.Some? && id.value != ""
  }

  /** `list(filter(None, xs))`: the truthy entries of `xs`, in their order. */
  function KeepTruthy(xs: seq<Option<FlowId>>): (r: seq<FlowId>)
    ensures |r| <= |xs|
    ensures forall k :: 0 <= k < |r| ==> r[k] != ""
  {
    if xs == [] then []
    else if Truthy(xs[0]) then [xs[0].value] + KeepTruthy(xs[1..])
    else KeepTruthy(xs[1..])
  }

  /** An identifier survives the filter exactly when it was present and non-empty. */
  lemma {:induction false} KeepTruthyMembers(xs: seq<Option<FlowId>>, x: FlowId)
    ensures x in KeepTruthy(xs) <==> Some(x) in xs && x != ""
  {
    if xs != [] {
      KeepTruthyMembers(xs[1..], x);
      assert xs == [xs[0]] + xs[1..];
    }
  }

  /** Filtering a concatenation filters each part and keeps them in order. */
  lemma {:induction false} KeepTruthyAppend(xs: seq<Option<FlowId>>, ys: seq<Option<FlowId>>)
    ensures KeepTruthy(xs + ys) == KeepTruthy(xs) + KeepTruthy(ys)
  {
    if xs != [] {
      assert (xs + ys)[0] == xs[0];
      assert (xs + ys)[1..] == xs[1..] + ys;
      KeepTruthyAppend(xs[1..], ys);
    } else {
      assert xs + ys == ys;
    }
  }

  /** A filter that keeps everything changes nothing. */
  lemma {:induction false} KeepTruthyAllTruthy(xs: seq<Option<FlowId>>)
    requires forall k :: 0 <= k < |xs| ==> Truthy(xs[k])
    ensures |KeepTruthy(xs)| == |xs|
    ensures forall k :: 0 <= k < |xs| ==> Some(KeepTruthy(xs)[k]) == xs[k]
  {
    if xs != [] {
      KeepTruthyAllTruthy(xs[1..]);
    }
  }

  /** The `specific_types` flow: one type-transforming pass, no prerequisites. */
  function TypesDeclaration(backend: string): Declaration
  {
    Declaration("specific_types", PassList(["vivado:transform_types"]), None, backend)
  }

  /** The `apply_templates` flow: its passes are produced later by the backend's template lookup. */
  function TemplatesDeclaration(backend: string): Declaration
  {
    Declaration("apply_templates", LayerTemplates, None, backend)
  }

  /** The `write` flow: stamp, then write the project; it needs the IP flow of the Vivado backend. */
  function WriterDeclaration(backend: string): Declaration
  {
    Declaration("write", PassList(["make_stamp", "symbolicexpression:write_hls"]), Some(["vivado:ip"]), backend)
  }

  /** What the `ip` flow requires: the types and templates flows that came back truthy, in that order. */
  function IpRequirements(typesFlow: Option<FlowId>, templateFlow: Option<FlowId>): seq<FlowId>
  {
    KeepTruthy([typesFlow, templateFlow])
  }

  /** The `ip` flow: no passes of its own, only the surviving requirements. */
  function IpDeclaration(backend: string, typesFlow: Option<FlowId>, templateFlow: Option<FlowId>): Declaration
  {
    Declaration("ip", NoPasses, Some(IpRequirements(typesFlow, templateFlow)), backend)
  }

  /**
   * The `ip` requirements case by case: each of the two flows is listed when
   * and only when its identifier is truthy, the types flow first; with
   * neither, the list is empty rather than absent.
   */
  lemma IpRequirementsCases(typesFlow: Option<FlowId>, templateFlow: Option<FlowId>)
    ensures IpRequirements(typesFlow, templateFlow)
      == (if Truthy(typesFlow) then [typesFlow.value] else [])
         + (if Truthy(templateFlow) then [templateFlow.value] else [])
  {
    var xs := [typesFlow, templateFlow];
    assert xs == [typesFlow] + [templateFlow];
    KeepTruthyAppend([typesFlow], [templateFlow]);
    assert [typesFlow][1..] == [];
    assert [templateFlow][1..] == [];
  }

  /**
   * The four declarations of `_register_flows`, in the order it makes them:
   * `specific_types` and `apply_templates` with no prerequisites, `write`
   * with its two passes after `vivado:ip`, and `ip` with no passes, after
   * whatever the registry returned for the first two.
   */
  function Declarations(backend: string, register: Declaration -> Option<FlowId>): (ds: seq<Declaration>)
    ensures |ds| == 4
    ensures forall k :: 0 <= k < 4 ==> ds[k].backend == backend
    ensures ds[0].name == "specific_types" && ds[0].passes == PassList(["vivado:transform_types"])
    ensures ds[1].name == "apply_templates" && ds[1].passes == LayerTemplates
    ensures ds[0].requirements == None && ds[1].requirements == None
    ensures ds[2].name == "write" && ds[2].passes == PassList(["make_stamp", "symbolicexpression:write_hls"])
    ensures ds[2].requirements == Some(["vivado:ip"])
    ensures ds[3].name == "ip" && ds[3].passes == NoPasses
    ensures ds[3].requirements == Some(IpRequirements(register(ds[0]), register(ds[1])))
  {
    var types := TypesDeclaration(backend);
    var templates := TemplatesDeclaration(backend);
    [types, templates, WriterDeclaration(backend), IpDeclaration(backend, register(types), register(templates))]
  }

  /**
   * A flow is a prerequisite of `ip` exactly when the registry returned it,
   * non-empty, for `specific_types` or for `apply_templates`; and there are
   * never more than those two.
   */
  lemma IpRequirementsMembers(backend: string, register: Declaration -> Option<FlowId>, x: FlowId)
    ensures var ds := Declarations(backend, register);
      && |ds[3].requirements.value| <= 2
      && (x in ds[3].requirements.value
          <==> x != "" && (register(ds[0]) == Some(x) || register(ds[1]) == Some(x)))
  {
    var ds := Declarations(backend, register);
    KeepTruthyMembers([register(ds[0]), register(ds[1])], x);
  }

  /** The backend object: its name and the two flows it keeps from registration. */
  class SymbolicExpressionBackend {
    const name: string
    var writerFlow: Option<FlowId>
    var defaultFlow: Option<FlowId>
    /** The registry's `register_flow`, which the backend declares its flows to. */
    const registry: Declaration -> Option<FlowId>
    /** Every declaration made to the registry so far, oldest first. */
    ghost var declared: seq<Declaration>

    /** The two kept flows are what the registry returned for `write` and for `ip`. */
    ghost predicate Valid()
      reads this
    {
      && |declared| >= 4
      && declared[|declared| - 4..] == Declarations(name, registry)
      && writerFlow == registry(declared[|declared| - 2])
      && defaultFlow == registry(declared[|declared| - 1])
    }

    /** `__init__`: take the backend name, then declare the flows. */
    constructor (register: Declaration -> Option<FlowId>)
      ensures name == BackendName && registry == register
      ensures declared == Declarations(BackendName, register)
      ensures Valid()
    {
      name := BackendName;
      registry := register;
      declared := [];
      new;
      RegisterFlows();
    }

    /**
     * `_register_flows`: declare the types, templates, writer and IP flows in
     * that order, keep the writer flow, make the IP flow require the truthy
     * results of the first two, and keep it as the default flow.
     */
    method RegisterFlows()
      modifies this
      ensures declared == old(declared) + Declarations(name, registry)
      ensures writerFlow == registry(Declarations(name, registry)[2])
      ensures defaultFlow == registry(Declarations(name, registry)[3])
      ensures Valid()
    {
      var typesDecl := TypesDeclaration(name);
      var typesFlow := registry(typesDecl);
      declared := declared + [typesDecl];

      var templatesDecl := TemplatesDeclaration(name);
      var templateFlow := registry(templatesDecl);
      declared := declared + [templatesDecl];

      var writerDecl := WriterDeclaration(name);
      writerFlow := registry(writerDecl);
      declared := declared + [writerDecl];

      var requirements := KeepTruthy([typesFlow, templateFlow]);
      var ipDecl := Declaration("ip", NoPasses, Some(requirements), name);
      defaultFlow := registry(ipDecl);
      declared := declared + [ipDecl];
      assert declared[|declared| - 4..] == [typesDecl, templatesDecl, writerDecl, ipDecl];
    }

    /** `get_default_flow`: the flow the registry returned for the `ip` declaration. */
    method GetDefaultFlow() returns (r: Option<FlowId>)
      requires Valid()
      ensures r == registry(Declarations(name, registry)[3])
    {
      r := defaultFlow;
    }

    /** `get_writer_flow`: the flow the registry returned for the `write` declaration. */
    method GetWriterFlow() returns (r: Option<FlowId>)
      requires Valid()
      ensures r == registry(Declarations(name, registry)[2])
    {
      r := writerFlow;
    }
  }
}
