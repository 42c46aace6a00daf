/** `k8s_automation/deployment.py`: loading and validating the user's values
    file, merging in defaults, and the create-or-patch application of the
    Deployment and the KEDA ScaledObject. */
module Deployment {
  import opened Base
  import opened KubeClient

  // ---------------------------------------------------------------------
  // Values validation and default merge
  // ---------------------------------------------------------------------

  /** The values file as the YAML loader returns it: either opening or
      parsing failed, or it yielded a document. */
  datatype Document = Unreadable | Parsed(root: Value)

  /** Why a values file was rejected; the source echoes a message naming
      the missing field and returns `None`. */
  datatype ValidationError =
    | ReadError
    | NotAMapping
    | MissingField(field: string)
    | ScalingNotAMapping
    | MissingScalingField(field: string)

  const RequiredFields: seq<string> := ["name", "image"]
  const RequiredScalingFields: seq<string> := ["trigger_type", "trigger_metadata"]

  /** The defaults a values file is merged onto. There are no defaults for
      the `scaling` section. */
  const Defaults: map<string, Value> := map[
    "namespace" := Str("default"),
    "port" := Int(80),
    "replicas" := Int(1),
    "cpu_request" := Str("100m"),
    "mem_request" := Str("128Mi"),
    "cpu_limit" := Str("250m"),
    "mem_limit" := Str("256Mi")
  ]

  /** The values a file must hold to be accepted. */
  predicate Accepted(user: map<string, Value>)
  {
    && "name" in user
    && "image" in user
    && ("scaling" in user ==>
          && user["scaling"].Mapping?
          && "trigger_type" in user["scaling"].entries
          && "trigger_metadata" in user["scaling"].entries)
  }

  /** Python's `dict.update`: a copy of `base` overlaid with `overlay`, whose
      entries win on shared keys. */
  function Overlay(base: map<string, Value>, overlay: map<string, Value>): (r: map<string, Value>)
    ensures r.Keys == base.Keys + overlay.Keys
    ensures forall k :: k in overlay ==> r[k] == overlay[k]
    ensures forall k :: k in base && k !in overlay ==> r[k] == base[k]
  {
    base + overlay
  }

  /** The loop over a list of required keys: the first one absent from
      `keys`, if any. */
  method FirstMissing(fields: seq<string>, keys: set<string>) returns (missing: Option<string>)
    ensures missing.None? <==> forall i :: 0 <= i < |fields| ==> fields[i] in keys
    ensures missing.Some? ==>
      exists i :: 0 <= i < |fields| && fields[i] == missing.value && fields[i] !in keys &&
        forall j :: 0 <= j < i ==> fields[j] in keys
  {
    for i := 0 to |fields|
      invariant forall j :: 0 <= j < i ==> fields[j] in keys
    {
      if fields[i] !in keys {
        return Some(fields[i]);
      }
    }
    return None;
  }

  /** `validate_and_process_values`, given what the YAML loader produced. */
  method ValidateAndProcessValues(doc: Document) returns (r: Result<map<string, Value>, ValidationError>)
    ensures r.Success? <==> doc.Parsed? && doc.root.Mapping? && Accepted(doc.root.entries)
    ensures r.Success? ==> r.value == Overlay(Defaults, doc.root.entries)
    ensures doc.Unreadable? ==> r == Failure(ReadError)
    ensures doc.Parsed? && !doc.root.Mapping? ==> r == Failure(NotAMapping)
    ensures doc.Parsed? && doc.root.Mapping? && "name" !in doc.root.entries ==>
      r == Failure(MissingField("name"))
    ensures doc.Parsed? && doc.root.Mapping? && "name" in doc.root.entries && "image" !in doc.root.entries ==>
      r == Failure(MissingField("image"))
    ensures (doc.Parsed? && doc.root.Mapping? && "name" in doc.root.entries && "image" in doc.root.entries &&
             "scaling" in doc.root.entries) ==>
        var scaling := doc.root.entries["scaling"];
        && (!scaling.Mapping? ==> r == Failure(ScalingNotAMapping))
        && (scaling.Mapping? && "trigger_type" !in scaling.entries ==>
              r == Failure(MissingScalingField("trigger_type")))
        && (scaling.Mapping? && "trigger_type" in scaling.entries && "trigger_metadata" !in scaling.entries ==>
              r == Failure(MissingScalingField("trigger_metadata")))
  {
    if doc.Unreadable? {
      return Failure(ReadError);
    }
    if !doc.root.Mapping? {
      return Failure(NotAMapping);
    }
    var user := doc.root.entries;
    assert RequiredFields[0] == "name" && RequiredFields[1] == "image";
    var missing := FirstMissing(RequiredFields, user.Keys);
    if missing.Some? {
      return Failure(MissingField(missing.value));
    }
    if "scaling" in user {
      var scaling := user["scaling"];
      if !scaling.Mapping? {
        return Failure(ScalingNotAMapping);
      }
      assert RequiredScalingFields[0] == "trigger_type" && RequiredScalingFields[1] == "trigger_metadata";
      missing := FirstMissing(RequiredScalingFields, scaling.entries.Keys);
      if missing.Some? {
        return Failure(MissingScalingField(missing.value));
      }
    }
    var finalValues := Defaults;
    finalValues := finalValues + user;
    return Success(finalValues);
  }

  /** The merge leaves the `scaling` section as the user wrote it: no
      `min_replicas` or `max_replicas` is filled in. */
  lemma ScalingKeptAsGiven(user: map<string, Value>)
    requires "scaling" in user
    ensures var merged := Overlay(Defaults, user);
      "scaling" in merged && merged["scaling"] == user["scaling"]
    ensures user["scaling"].Mapping? ==>
      ("min_replicas" in Overlay(Defaults, user)["scaling"].entries <==> "min_replicas" in user["scaling"].entries)
  {
  }

  /** A values file with only `name`, `image` and a `scaling` section is
      accepted, and the merge fills in namespace `default`, port 80 and one
      replica. */
  lemma DefaultsFillExample()
    ensures var scaling := Mapping(map[
              "trigger_type" := Str("cpu"), "trigger_metadata" := Mapping(map[]),
              "min_replicas" := Int(2), "max_replicas" := Int(5)]);
            var user := map["name" := Str("api"), "image" := Str("img:1"), "scaling" := scaling];
            var merged := Overlay(Defaults, user);
            && Accepted(user)
            && merged["namespace"] == Str("default")
            && merged["port"] == Int(80)
            && merged["replicas"] == Int(1)
            && merged["name"] == Str("api")
            && merged["scaling"] == scaling
  {
  }

  // ---------------------------------------------------------------------
  // Create-or-patch of the Deployment and the ScaledObject
  // ---------------------------------------------------------------------

  /** The two Jinja2 templates; rendering and re-parsing them is an input of
      the model, `None` standing for a template or YAML error. */
  datatype Template = DeploymentTemplate | ScaledObjectTemplate

  /** What a read's answer tells the reconciler to do. */
  datatype Decision = PatchExisting | CreateMissing | Abort(error: ApiError)

  datatype Applied = Patched | Created

  const ScaledObjectSuffix: string := "-so"

  /** Found means patch, 404 means create, any other error aborts. */
  function Decide(read: Result<Value, ApiError>): (d: Decision)
    ensures d == PatchExisting <==> read.Success?
    ensures d == CreateMissing <==> read.Failure? && read.error.status == NotFound
    ensures d.Abort? <==> read.Failure? && read.error.status != NotFound
    ensures d.Abort? ==> d.error == read.error
  {
    match read
    case Success(_) => PatchExisting
    case Failure(e) => if e.status == NotFound then CreateMissing else Abort(e)
  }

  /** The effect of one create-or-patch: the cluster afterwards, the calls
      made, and what was done or the error raised. */
  datatype Step = Step(cluster: Cluster, calls: seq<Call>, result: Result<Applied, ApiError>)

  /** The `except` branch reaches its create: the read answered 404, or the
      read found the object and the patch then answered 404. */
  predicate FallsBackToCreate(c: Cluster, key: ObjectKey)
  {
    || (c.Lookup(key).Failure? && c.Lookup(key).error.status == NotFound)
    || (c.Lookup(key).Success? && key in c.patchFaults && c.patchFaults[key].status == NotFound)
  }

  /** One `try: read; patch / except ApiException: if 404: create else raise`
      block: the read, the patch and the create are all inside the `try`, so a
      404 from the patch also leads to the create. */
  function Reconcile(c: Cluster, key: ObjectKey, body: Value): (s: Step)
    ensures s.calls ==
      [Call.Read(key)]
      + (if c.Lookup(key).Success? then [Call.Patch(key, body)] else [])
      + (if FallsBackToCreate(c, key) then [Call.Create(key, body)] else [])
    ensures Call.Patch(key, body) in s.calls <==> c.Lookup(key).Success?
    ensures Call.Create(key, body) in s.calls <==> FallsBackToCreate(c, key)
    ensures c.Lookup(key).Failure? && c.Lookup(key).error.status != NotFound ==>
      s == Step(c, [Call.Read(key)], Failure(c.Lookup(key).error))
    ensures s.result.Success? <==>
      || (c.Lookup(key).Success? && key !in c.patchFaults)
      || (FallsBackToCreate(c, key) && key !in c.createFaults)
    ensures s.result.Success? ==>
      && s.cluster == c.(store := c.store[key := body])
      && s.result.value == (if FallsBackToCreate(c, key) then Created else Patched)
    ensures s.result.Failure? ==>
      && s.cluster == c
      && s.result.error ==
           if FallsBackToCreate(c, key) then c.createFaults[key]
           else if c.Lookup(key).Failure? then c.Lookup(key).error
           else c.patchFaults[key]
  {
    match Decide(c.Lookup(key))
    case Abort(e) => Step(c, [Call.Read(key)], Failure(e))
    case CreateMissing => CreateAfter(c, key, body, [Call.Read(key)])
    case PatchExisting =>
      var (next, w) := c.Write(Patching, key, body);
      var sent := [Call.Read(key), Call.Patch(key, body)];
      if w.Success? then Step(next, sent, Success(Patched))
      else if w.error.status == NotFound then CreateAfter(c, key, body, sent)
      else Step(c, sent, Failure(w.error))
  }

  /** The create of the `except` branch, after the calls already `sent`. */
  function CreateAfter(c: Cluster, key: ObjectKey, body: Value, sent: seq<Call>): (s: Step)
    ensures s.calls == sent + [Call.Create(key, body)]
    ensures s.result.Success? <==> key !in c.createFaults
  {
    var (next, w) := c.Write(Creating, key, body);
    Step(next, sent + [Call.Create(key, body)], if w.Success? then Success(Created) else Failure(w.error))
  }

  /** The same block against the fake client. */
  method ApplyResource(client: FakeClient, key: ObjectKey, body: Value) returns (r: Result<Applied, ApiError>)
    modifies client
    ensures var s := Reconcile(old(client.cluster), key, body);
      client.cluster == s.cluster && client.calls == old(client.calls) + s.calls && r == s.result
  {
    var found := client.Read(key);
    match Decide(found) {
      case PatchExisting =>
        var w := client.Patch(key, body);
        if w.Success? {
          r := Success(Patched);
        } else if w.error.status == NotFound {
          var created := client.Create(key, body);
          r := if created.Success? then Success(Created) else Failure(created.error);
        } else {
          r := Failure(w.error);
        }
      case CreateMissing =>
        var created := client.Create(key, body);
        r := if created.Success? then Success(Created) else Failure(created.error);
      case Abort(e) =>
        r := Failure(e);
    }
  }

  function DeploymentKey(values: map<string, Value>): (k: ObjectKey)
    requires "name" in values && "namespace" in values
    ensures k.kind == Deployment && k.namespace == values["namespace"]
    ensures NameText(k.name) == (if values["name"].Str? then Some(values["name"].s) else None)
  {
    ObjectKey(Deployment, values["namespace"], Named(values["name"]))
  }

  /** The ScaledObject lives beside the Deployment under `<name>-so`. */
  function ScaledObjectKey(values: map<string, Value>): (k: ObjectKey)
    requires "name" in values && "namespace" in values
    ensures k.kind == ScaledObject && k.namespace == values["namespace"]
    ensures NameText(k.name) == (if values["name"].Str? then Some(values["name"].s + "-so") else None)
  {
    ObjectKey(ScaledObject, values["namespace"], Suffixed(values["name"], ScaledObjectSuffix))
  }

  /** The effect of a whole `create_kubernetes_resources` call. */
  datatype Run = Run(cluster: Cluster, calls: seq<Call>, ok: bool)

  /** The Deployment manifest rendered and both keys can be formed, so the
      Deployment's create-or-patch is reached. */
  predicate Addressable(values: map<string, Value>, render: (Template, map<string, Value>) -> Option<Value>)
  {
    render(DeploymentTemplate, values).Some? && "name" in values && "namespace" in values
  }

  /** The Deployment's create-or-patch. */
  function DeploymentStep(c: Cluster, values: map<string, Value>,
                          render: (Template, map<string, Value>) -> Option<Value>): Step
    requires Addressable(values, render)
  {
    Reconcile(c, DeploymentKey(values), render(DeploymentTemplate, values).value)
  }

  /** The ScaledObject step is reached: the Deployment was applied, the values
      hold `scaling` and the ScaledObject manifest rendered. */
  predicate ReachesScaledObject(c: Cluster, values: map<string, Value>,
                                render: (Template, map<string, Value>) -> Option<Value>)
  {
    && Addressable(values, render)
    && DeploymentStep(c, values, render).result.Success?
    && "scaling" in values
    && render(ScaledObjectTemplate, values).Some?
  }

  /** The ScaledObject's create-or-patch, against the cluster the Deployment
      step left. */
  function ScaledObjectStep(c: Cluster, values: map<string, Value>,
                            render: (Template, map<string, Value>) -> Option<Value>): Step
    requires ReachesScaledObject(c, values, render)
  {
    Reconcile(DeploymentStep(c, values, render).cluster, ScaledObjectKey(values),
              render(ScaledObjectTemplate, values).value)
  }

  function CreateResources(c: Cluster, values: map<string, Value>,
                           render: (Template, map<string, Value>) -> Option<Value>): (run: Run)
    ensures run.cluster.readFaults == c.readFaults
    ensures run.cluster.createFaults == c.createFaults && run.cluster.patchFaults == c.patchFaults
    ensures run.ok <==>
      && Addressable(values, render)
      && DeploymentStep(c, values, render).result.Success?
      && ("scaling" in values ==>
            && render(ScaledObjectTemplate, values).Some?
            && ScaledObjectStep(c, values, render).result.Success?)
    ensures run.calls ==
      if !Addressable(values, render) then []
      else if !ReachesScaledObject(c, values, render) then DeploymentStep(c, values, render).calls
      else DeploymentStep(c, values, render).calls + ScaledObjectStep(c, values, render).calls
  {
    if !Addressable(values, render) then Run(c, [], false)
    else
      var first := DeploymentStep(c, values, render);
      if first.result.Failure? then Run(first.cluster, first.calls, false)
      else if "scaling" !in values then Run(first.cluster, first.calls, true)
      else if render(ScaledObjectTemplate, values).None? then Run(first.cluster, first.calls, false)
      else
        var second := ScaledObjectStep(c, values, render);
        Run(second.cluster, first.calls + second.calls, second.result.Success?)
  }

  /** Every call addresses the Deployment or the ScaledObject; without
      `scaling` only the Deployment; and no Deployment call follows a
      ScaledObject call. */
  lemma CallsAddressTheTwoObjects(c: Cluster, values: map<string, Value>,
                                  render: (Template, map<string, Value>) -> Option<Value>)
    ensures var run := CreateResources(c, values, render);
      && (run.calls != [] ==> Addressable(values, render))
      && (forall call :: call in run.calls ==>
            call.key == DeploymentKey(values) || call.key == ScaledObjectKey(values))
      && ("scaling" !in values ==> forall call :: call in run.calls ==> call.key.kind == Deployment)
      && (forall i, j :: 0 <= i < j < |run.calls| && run.calls[j].key.kind == Deployment ==>
            run.calls[i].key.kind == Deployment)
  {
    var run := CreateResources(c, values, render);
    if Addressable(values, render) {
      var first := DeploymentStep(c, values, render);
      assert forall call :: call in first.calls ==> call.key == DeploymentKey(values);
      if ReachesScaledObject(c, values, render) {
        var second := ScaledObjectStep(c, values, render);
        assert forall call :: call in second.calls ==> call.key == ScaledObjectKey(values);
        assert run.calls == first.calls + second.calls;
      }
    }
  }

  /** A Deployment step that fails ends the run: no ScaledObject call is
      made and the run reports failure. */
  lemma FailedDeploymentStops(c: Cluster, values: map<string, Value>,
                              render: (Template, map<string, Value>) -> Option<Value>)
    requires Addressable(values, render) && DeploymentStep(c, values, render).result.Failure?
    ensures var run := CreateResources(c, values, render);
      && !run.ok
      && run.calls == DeploymentStep(c, values, render).calls
      && forall call :: call in run.calls ==> call.key == DeploymentKey(values)
  {
  }

  /** A read of the Deployment that fails with a status other than 404 is
      re-raised: the run fails after that single read and changes nothing. */
  lemma AbortsOnDeploymentReadError(c: Cluster, values: map<string, Value>,
                                    render: (Template, map<string, Value>) -> Option<Value>)
    requires Addressable(values, render)
    requires c.Lookup(DeploymentKey(values)).Failure?
    requires c.Lookup(DeploymentKey(values)).error.status != NotFound
    ensures var run := CreateResources(c, values, render);
      && !run.ok
      && run.calls == [Call.Read(DeploymentKey(values))]
      && run.cluster == c
  {
  }

  /** A successful run leaves the Deployment stored with its rendered
      manifest, and the ScaledObject too when `scaling` is present. */
  lemma AppliedObjectsStored(c: Cluster, values: map<string, Value>,
                             render: (Template, map<string, Value>) -> Option<Value>)
    requires CreateResources(c, values, render).ok
    ensures var run := CreateResources(c, values, render);
      && DeploymentKey(values) in run.cluster.store
      && run.cluster.store[DeploymentKey(values)] == render(DeploymentTemplate, values).value
      && ("scaling" in values ==>
            && ScaledObjectKey(values) in run.cluster.store
            && run.cluster.store[ScaledObjectKey(values)] == render(ScaledObjectTemplate, values).value)
  {
  }

  /** `create_kubernetes_resources`: the Deployment first, then the
      ScaledObject when the values hold a `scaling` section; any error
      aborts with `(False, None)`, success returns the values unchanged. */
  method CreateKubernetesResources(client: FakeClient, values: map<string, Value>,
                                   render: (Template, map<string, Value>) -> Option<Value>)
    returns (ok: bool, details: Option<map<string, Value>>)
    modifies client
    ensures var run := CreateResources(old(client.cluster), values, render);
      client.cluster == run.cluster && client.calls == old(client.calls) + run.calls && ok == run.ok
    ensures details == if ok then Some(values) else None
  {
    var deployment := render(DeploymentTemplate, values);
    if deployment.None? {
      return false, None;
    }
    if "name" !in values || "namespace" !in values {
      return false, None;
    }
    ghost var c := client.cluster;
    ghost var before := client.calls;
    var r := ApplyResource(client, DeploymentKey(values), deployment.value);
    ghost var first := DeploymentStep(c, values, render);
    assert client.calls == before + first.calls && r == first.result;
    if r.Failure? {
      return false, None;
    }
    if "scaling" in values {
      var scaledObject := render(ScaledObjectTemplate, values);
      if scaledObject.None? {
        return false, None;
      }
      r := ApplyResource(client, ScaledObjectKey(values), scaledObject.value);
      ghost var second := ScaledObjectStep(c, values, render);
      assert client.calls == before + first.calls + second.calls && r == second.result;
      if r.Failure? {
        return false, None;
      }
    }
    return true, Some(values);
  }

  /** Applying the same values again after a successful apply patches both
      objects and creates nothing, as long as no read error is injected and
      no patch answers 404 (no object is deleted in between). */
  lemma ReapplyPatches(c: Cluster, values: map<string, Value>,
                        render: (Template, map<string, Value>) -> Option<Value>)
    requires CreateResources(c, values, render).ok
    requires c.readFaults == map[]
    requires forall k :: k in c.patchFaults ==> c.patchFaults[k].status != NotFound
    ensures forall call :: call in CreateResources(CreateResources(c, values, render).cluster, values, render).calls ==>
      !call.Create?
  {
  }
}
