/** The part of the Kubernetes API the automation uses, as a fake client: a
    store of objects keyed by kind, namespace and name, per-key injected
    errors for reads, creates and patches, and a journal of every call made. */
module KubeClient {
  import opened Base

  /** The HTTP status the API reports for a missing object. */
  const NotFound: int := 404

  /** `client.ApiException`: an HTTP status and a reason phrase. */
  datatype ApiError = ApiError(status: int, reason: string)

  datatype Kind = Deployment | ScaledObject

  /** An object's name. The automation passes `values['name']` unchanged for
      the Deployment and formats `f"{values['name']}{suffix}"` for the
      ScaledObject; the formatting of a non-string YAML value is kept
      symbolic. */
  datatype ObjectName = Named(base: Value) | Suffixed(base: Value, suffix: string)

  datatype ObjectKey = ObjectKey(kind: Kind, namespace: Value, name: ObjectName)

  /** One request sent to the API server. */
  datatype Call =
    | Read(key: ObjectKey)
    | Create(key: ObjectKey, body: Value)
    | Patch(key: ObjectKey, body: Value)

  /** The text of a name whose base is a YAML string. */
  function NameText(n: ObjectName): (t: Option<string>)
    ensures t.Some? <==> n.base.Str?
    ensures n.Named? && n.base.Str? ==> t == Some(n.base.s)
    ensures n.Suffixed? && n.base.Str? ==> t == Some(n.base.s + n.suffix)
  {
    match n
    case Named(Str(s)) => Some(s)
    case Suffixed(Str(s), suffix) => Some(s + suffix)
    case _ => None
  }

  /** The two kinds of write the automation sends. */
  datatype Verb = Creating | Patching

  /** What the fake API server holds: the stored objects and the errors
      injected for reads, creates and patches of particular keys. A patch
      error with status 404 stands for an object deleted between its read
      and its patch. */
  datatype Cluster = Cluster(
    store: map<ObjectKey, Value>,
    readFaults: map<ObjectKey, ApiError>,
    createFaults: map<ObjectKey, ApiError>,
    patchFaults: map<ObjectKey, ApiError>)
  {
    /** The answer to a read: an injected error, the stored object, or 404. */
    function Lookup(key: ObjectKey): (r: Result<Value, ApiError>)
      ensures r.Success? <==> key !in readFaults && key in store
      ensures r.Success? ==> r.value == store[key]
      ensures r.Failure? && key !in readFaults ==> r.error.status == NotFound
    {
      if key in readFaults then Failure(readFaults[key])
      else if key in store then Success(store[key])
      else Failure(ApiError(NotFound, "Not Found"))
    }

    /** The errors injected for one kind of write. */
    function Faults(verb: Verb): map<ObjectKey, ApiError>
    {
      match verb
      case Creating => createFaults
      case Patching => patchFaults
    }

    /** A create or a patch of `key`: fails on an injected error, otherwise
        stores `body` under `key`. */
    function Write(verb: Verb, key: ObjectKey, body: Value): (r: (Cluster, Result<(), ApiError>))
      ensures r.1.Success? <==> key !in Faults(verb)
      ensures r.1.Success? ==> r.0 == this.(store := store[key := body])
      ensures r.1.Failure? ==> r.0 == this && r.1.error == Faults(verb)[key]
    {
      if key in Faults(verb) then (this, Failure(Faults(verb)[key]))
      else (this.(store := store[key := body]), Success(()))
    }
  }

  /** A fake `ApiClient`: the cluster it talks to and the calls it received. */
  class FakeClient {
    var cluster: Cluster
    var calls: seq<Call>

    constructor (initial: Cluster)
      ensures cluster == initial && calls == []
    {
      cluster := initial;
      calls := [];
    }

    /** `read_namespaced_deployment` / `get_namespaced_custom_object`. */
    method Read(key: ObjectKey) returns (r: Result<Value, ApiError>)
      modifies this`calls
      ensures r == cluster.Lookup(key)
      ensures calls == old(calls) + [Call.Read(key)]
    {
      r := cluster.Lookup(key);
      calls := calls + [Call.Read(key)];
    }

    /** `create_namespaced_deployment` / `create_namespaced_custom_object`. */
    method Create(key: ObjectKey, body: Value) returns (r: Result<(), ApiError>)
      modifies this
      ensures (cluster, r) == old(cluster).Write(Creating, key, body)
      ensures calls == old(calls) + [Call.Create(key, body)]
    {
      var next := cluster.Write(Creating, key, body);
      cluster, r := next.0, next.1;
      calls := calls + [Call.Create(key, body)];
    }

    /** `patch_namespaced_deployment` / `patch_namespaced_custom_object`: the
        whole rendered body is sent and stored as given. */
    method Patch(key: ObjectKey, body: Value) returns (r: Result<(), ApiError>)
      modifies this
      ensures (cluster, r) == old(cluster).Write(Patching, key, body)
      ensures calls == old(calls) + [Call.Patch(key, body)]
    {
      var next := cluster.Write(Patching, key, body);
      cluster, r := next.0, next.1;
      calls := calls + [Call.Patch(key, body)];
    }
  }
}
