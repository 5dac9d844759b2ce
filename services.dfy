/** The service selector of the stack orchestration layer: it turns the
    services a user asked for into the composition units handed to the
    compose engine. An empty unit list means "every service" to the engine. */
module Services {

  /** The service that starts only against the complete stack. */
  const OrchestratorService: string := "elastic-agent"

  /** Suffix that names the readiness sidecar of a service. */
  const ReadinessSuffix: string := "_is_ready"

  /** The readiness sidecar unit of `service`. */
  function SidecarOf(service: string): (sidecar: string)
    ensures |sidecar| == |service| + |ReadinessSuffix|
    ensures sidecar[..|service|] == service && sidecar[|service|..] == ReadinessSuffix
  {
    service + ReadinessSuffix
  }

  // ---------------------------------------------------------------------
  // Reference definitions

  /** Dependency escalation: the orchestrator anywhere in the selection
      collapses it to the "all services" selection. */
  function Escalated(services: seq<string>): seq<string> {
    if OrchestratorService in services then [] else services
  }

  /** Readiness expansion: every service followed at once by its sidecar. */
  function Expanded(services: seq<string>): seq<string>
    decreases |services|
  {
    if services == [] then []
    else [services[0], SidecarOf(services[0])] + Expanded(services[1..])
  }

  /** The units Build, Pull and Up pass to the engine for a selection. */
  function SelectUnits(services: seq<string>): seq<string> {
    Expanded(Escalated(services))
  }

  // ---------------------------------------------------------------------
  // Properties of the reference definitions

  /** Expansion doubles the length and puts each service at an even index
      with its sidecar right after it. */
  lemma {:induction false} ExpandedShape(services: seq<string>)
    ensures |Expanded(services)| == 2 * |services|
    ensures forall k :: 0 <= k < |services| ==>
      Expanded(services)[2 * k] == services[k] && Expanded(services)[2 * k + 1] == SidecarOf(services[k])
  {
    if services != [] {
      var rest := services[1..];
      ExpandedShape(rest);
      forall k | 0 <= k < |services|
        ensures Expanded(services)[2 * k] == services[k]
        ensures Expanded(services)[2 * k + 1] == SidecarOf(services[k])
      {
        if k > 0 {
          assert Expanded(services)[2 * k] == Expanded(rest)[2 * (k - 1)];
          assert Expanded(services)[2 * k + 1] == Expanded(rest)[2 * (k - 1) + 1];
        }
      }
    }
  }

  /** Expansion works element by element, so it distributes over concatenation. */
  lemma {:induction false} ExpandedAppend(s: seq<string>, t: seq<string>)
    ensures Expanded(s + t) == Expanded(s) + Expanded(t)
    decreases |s|
  {
    if s == [] {
      assert s + t == t;
    } else {
      assert (s + t)[1..] == s[1..] + t;
      ExpandedAppend(s[1..], t);
    }
  }

  /** The expanded units are exactly the selected services and their sidecars. */
  lemma {:induction false} ExpandedMembers(services: seq<string>, unit: string)
    ensures unit in Expanded(services) <==>
      unit in services || exists s :: s in services && unit == SidecarOf(s)
    decreases |services|
  {
    if services != [] {
      ExpandedMembers(services[1..], unit);
      assert services == [services[0]] + services[1..];
      if unit !in Expanded(services) {
        assert unit != services[0] && unit != SidecarOf(services[0]);
      }
    }
  }

  /** Escalation never leaves the orchestrator in its result, so applying it
      a second time changes nothing. */
  lemma EscalatedIdempotent(services: seq<string>)
    ensures OrchestratorService !in Escalated(services)
    ensures Escalated(Escalated(services)) == Escalated(services)
  {
  }

  /** Build, Pull and Up select the whole stack exactly when the selection is
      empty or contains the orchestrator; otherwise each selected service
      appears with its sidecar. */
  lemma SelectAllIff(services: seq<string>)
    ensures SelectUnits(services) == [] <==> services == [] || OrchestratorService in services
    ensures OrchestratorService !in services ==>
      |SelectUnits(services)| == 2 * |services| &&
      forall k :: 0 <= k < |services| ==>
        SelectUnits(services)[2 * k] == services[k] && SelectUnits(services)[2 * k + 1] == SidecarOf(services[k])
  {
    ExpandedShape(Escalated(services));
  }

  /** Selecting everything is stable: applying the selector to its own
      empty output gives the empty output again. */
  lemma SelectAllStable(services: seq<string>)
    requires SelectUnits(services) == []
    ensures SelectUnits(SelectUnits(services)) == []
  {
  }

  /** The worked selections: a plain service, a selection with the
      orchestrator, and the empty selection. */
  lemma SelectExamples()
    ensures SelectUnits(["output-a"]) == ["output-a", "output-a_is_ready"]
    ensures Escalated([OrchestratorService, "output-a"]) == [] && SelectUnits([OrchestratorService, "output-a"]) == []
    ensures Escalated([]) == [] && SelectUnits([]) == []
  {
    assert OrchestratorService !in ["output-a"];
    assert ["output-a"][1..] == [];
    assert SidecarOf("output-a") == "output-a_is_ready";
  }

  // ---------------------------------------------------------------------
  // The selector as the source writes it

  /** `withDependentServices`: scans the selection and returns the empty
      selection as soon as the orchestrator is found. */
  method WithDependentServices(services: seq<string>) returns (selected: seq<string>)
    ensures OrchestratorService in services ==> selected == []
    ensures OrchestratorService !in services ==> selected == services
    ensures selected == Escalated(services)
  {
    for i := 0 to |services|
      invariant OrchestratorService !in services[..i]
    {
      if services[i] == OrchestratorService {
        return [];
      }
    }
    assert services[..|services|] == services;
    return services;
  }

  /** `withIsReadyServices`: returns an empty selection unchanged, otherwise
      appends each service and then its sidecar. */
  method WithIsReadyServices(services: seq<string>) returns (units: seq<string>)
    ensures |units| == 2 * |services|
    ensures forall k :: 0 <= k < |services| ==>
      units[2 * k] == services[k] && units[2 * k + 1] == SidecarOf(services[k])
    ensures units == Expanded(services)
  {
    if |services| == 0 {
      return services;
    }
    var allServices: seq<string> := [];
    for i := 0 to |services|
      invariant allServices == Expanded(services[..i])
    {
      assert services[..i + 1] == services[..i] + [services[i]];
      ExpandedAppend(services[..i], [services[i]]);
      allServices := allServices + [services[i], SidecarOf(services[i])];
    }
    assert services[..|services|] == services;
    ExpandedShape(services);
    return allServices;
  }
}
