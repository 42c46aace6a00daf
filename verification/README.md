# KEDA deployment automation: a verified model of its decision logic

The modelled tool is a command-line helper around Kubernetes. It installs
KEDA (the Kubernetes event-driven autoscaler) with Helm and waits for the
KEDA operator to become ready. It turns a YAML values file into a
Deployment and, when the file has a `scaling` section, a KEDA
ScaledObject. It also reports the health of a Deployment and its pods.
The cluster, the shell and the YAML/Jinja2 boundaries are replaced here by
abstract inputs. What remains is modelled and proved: the values validator
with its default merge, the create-or-patch reconciler, the Helm command
sequencing, the bounded readiness poll, and the health report.

Files, one module each:

- `base.dfy` (`Base`): `Option`, `Result`, and `Value`, a parsed YAML node.
- `kube_client.dfy` (`KubeClient`): the API error type and object keys. It
  also holds a fake API server. `Cluster` is the fake's state: stored
  objects plus injected read, create and patch errors per key. A patch
  error with status 404 stands for an object deleted between its read and
  its patch. `FakeClient` is a
  class that holds a `Cluster` and a journal of the calls made.
- `deployment.dfy` (`Deployment`): `validate_and_process_values` and
  `create_kubernetes_resources`.
- `tooling.dfy` (`Tooling`): `run_command`, `add_helm_repo`,
  `install_keda_chart` and `verify_keda_installation`.
- `health.dfy` (`Health`): `get_deployment_status`.

How the external boundaries are represented:

- The values file is a `Document`: `Unreadable` stands for any open or
  parse error; otherwise `Parsed` holds the document.
- Template rendering followed by re-parsing the YAML is a function
  parameter `render(template, values)`. `None` stands for a template or
  YAML error.
- Exit statuses of shell commands are a function from command line to
  status.
- Each poll attempt's answer is a function from attempt index to answer.
- The status read and the pod listing are functions of their request
  arguments.
- Sleeps are recorded as events, with their length in seconds.

Behaviour of the code that the model keeps as written:

- The merge adds no `min_replicas`/`max_replicas` defaults to `scaling`.
  The values 1/10 appear only when `main.py` prints its summary.
- The read and the patch sit in the same `try`, so a patch answered with
  404 also leads to the create.
- The poll sleeps after every attempt that did not end it, the twelfth
  included. A timed-out poll therefore makes twelve reads and twelve
  sleeps.
- Pods are selected by the label selector `app=<name>`, not by the bare
  name.
- One `except client.ApiException` block covers both the status read and
  the pod listing. A 404 from the pod listing therefore also prints the
  "Deployment not found in namespace" line, after the summary.

## Model

| member | source | states |
|---|---|---|
| `Deployment.Overlay` | k8s_automation/deployment.py:46-47 | `dict.update`: the keys are the union of both maps, every overlay key keeps its overlay value, and every other base key keeps its base value |
| `Deployment.FirstMissing` | k8s_automation/deployment.py:21-25 | the required-field loop returns no field exactly when all fields are present; otherwise it returns the first absent field in list order |
| `Deployment.ValidateAndProcessValues` | k8s_automation/deployment.py:8-49 | accepted iff the document parsed, is a mapping, has `name` and `image`, and any `scaling` is a mapping with `trigger_type` and `trigger_metadata`. The accepted result is the defaults overlaid with the user map. Each rejection gives its own error; `name` is reported before `image` and `trigger_type` before `trigger_metadata` |
| `Deployment.ScalingKeptAsGiven` | k8s_automation/deployment.py:41-49 | the merged `scaling` entry is exactly the user's; no `min_replicas` is added |
| `Deployment.DefaultsFillExample` | k8s_automation/deployment.py:41-47 | `{name: api, image: img:1, scaling: {...}}` is accepted and merges to namespace `default`, port 80, 1 replica, with `scaling` unchanged |
| `Deployment.Decide` | k8s_automation/deployment.py:68-79 | a found object is patched, a 404 is created, and any other error aborts with that error |
| `Deployment.Reconcile` | k8s_automation/deployment.py:68-79 | the calls are the read, then the patch iff the read succeeded, then the create iff the read answered 404 or the patch answered 404. A non-404 read error makes no write and leaves the cluster unchanged. Success iff the patch or the create that was sent succeeded; it stores the body under the key and says which write did it. A failure leaves the cluster unchanged and carries the error of the last call |
| `Deployment.CreateAfter` | k8s_automation/deployment.py:73-77 | the `except` branch's create is appended to the calls already sent, and succeeds iff no create error is injected for the key |
| `Deployment.ApplyResource` | k8s_automation/deployment.py:68-79 | the read, then patch, create, or patch followed by create, against the fake client: the client's new state, the journal of calls, and the result are those of `Reconcile` |
| `Deployment.DeploymentKey` | k8s_automation/deployment.py:69 | the Deployment is addressed by `values['namespace']` and the name `values['name']` |
| `Deployment.ScaledObjectKey` | k8s_automation/deployment.py:89-95 | the ScaledObject is addressed in the same namespace by `values['name'] + "-so"` |
| `KubeClient.NameText` | k8s_automation/deployment.py:89 | the text of a name formatted from a YAML string, with its suffix appended |
| `Deployment.CreateResources` | k8s_automation/deployment.py:60-114 | success iff the Deployment manifest renders, `name` and `namespace` are present, the Deployment's create-or-patch succeeds, and, when `scaling` is present, the ScaledObject manifest renders and its create-or-patch succeeds. The calls are the Deployment step's, followed by the ScaledObject step's when that step is reached. Injected errors are unchanged |
| `Deployment.CallsAddressTheTwoObjects` | k8s_automation/deployment.py:68-105 | every call addresses the Deployment or `<name>-so`. Without `scaling` no call touches a ScaledObject. No Deployment call comes after a ScaledObject call |
| `Deployment.FailedDeploymentStops` | k8s_automation/deployment.py:73-109 | a failed Deployment step fails the run, and no ScaledObject call is made |
| `Deployment.AbortsOnDeploymentReadError` | k8s_automation/deployment.py:68-109 | a non-404 error on the Deployment read fails the run after that one read, with the cluster unchanged |
| `Deployment.AppliedObjectsStored` | k8s_automation/deployment.py:68-114 | after a successful run the Deployment is stored with its rendered manifest, and so is the ScaledObject when `scaling` is present |
| `Deployment.CreateKubernetesResources` | k8s_automation/deployment.py:51-114 | the client ends in the state `CreateResources` describes and the calls are appended in order. The result is `(True, values)` with values unchanged, or `(False, None)` |
| `Deployment.ReapplyPatches` | k8s_automation/deployment.py:68-105 | re-applying the same values after a successful apply issues no create, as long as no read error is injected and no patch answers 404 |
| `Tooling.RunCommand` | k8s_automation/tooling.py:43-51 | runs exactly the given command and succeeds iff it exits with status 0 |
| `Tooling.AddHelmRepo` | k8s_automation/tooling.py:53-59 | `repo update` runs only if `repo add` succeeded; success iff both exit 0 |
| `Tooling.InstallKedaChart` | k8s_automation/tooling.py:61-64 | runs the single `helm upgrade --install` command and succeeds iff it exits 0 |
| `Tooling.FirstDecisive` | k8s_automation/tooling.py:71-86 | the index of the first attempt among the twelve that is neither a 404 nor found-but-not-ready, if there is one |
| `Tooling.VerifyKedaInstallation` | k8s_automation/tooling.py:66-91 | the poll loop returns `PollReady` and emits `PollEvents`: a read and a 10-second sleep per retried attempt, then the deciding read with no sleep after it |
| `Tooling.PollReadyIff` | k8s_automation/tooling.py:71-86 | the poll succeeds iff some attempt below 12 shows `ready_replicas` set and positive, and every earlier attempt was a 404 or not ready |
| `Tooling.RoundsCounts` | k8s_automation/tooling.py:71-88 | k retried attempts make k reads of `keda-operator` in `keda` and k sleeps of 10 seconds |
| `Tooling.PollBounds` | k8s_automation/tooling.py:69-91 | at most 12 reads, all of `keda-operator` in `keda`; 12 reads and 12 sleeps on timeout; otherwise one sleep fewer than reads |
| `Tooling.ReadyAtAttempt` | k8s_automation/tooling.py:71-83 | 404 or not-ready answers before attempt k and a ready one at k: success after k+1 reads and k sleeps |
| `Tooling.ReadyOnLastAttempt` | k8s_automation/tooling.py:71-83 | eleven not-ready answers then a ready one: success after 12 reads and 11 sleeps |
| `Tooling.FailsAtFirstError` | k8s_automation/tooling.py:81-86 | a non-404 error at attempt k fails the poll after k+1 reads and k sleeps |
| `Tooling.TimesOut` | k8s_automation/tooling.py:79-91 | twelve 404 or not-ready answers: failure after 12 reads and 12 sleeps |
| `Health.OrZero` | k8s_automation/health.py:12-14 | an unset count reads as 0; a set count as itself |
| `Health.Classify` | k8s_automation/health.py:17-22 | Healthy iff total > 0 and ready == total, so a total of 0 or less is always Progressing |
| `Health.HealthColour` | k8s_automation/health.py:17-22 | Healthy is shown green and Progressing yellow |
| `Health.PhaseColour` | k8s_automation/health.py:43-48 | Running is green, Pending is yellow, and every other phase, unset included, is red |
| `Health.LabelSelector` | k8s_automation/health.py:32 | the selector is `app=` followed by the Deployment name |
| `Health.ErrorLine` | k8s_automation/health.py:52-56 | a 404 yields the "not found in namespace" line; any other status yields the reason line |
| `Health.Summary` | k8s_automation/health.py:12-27 | title, namespace, health line, ready/total line with unset counts as 0, and the pods heading; the health is Healthy iff the coalesced total is positive and equals the coalesced ready count, and it is coloured by that health |
| `Health.ReportPods` | k8s_automation/health.py:35-50 | an empty list yields only the "no pods" line; otherwise one line per pod, in list order, coloured by its phase |
| `Health.GetDeploymentStatus` | k8s_automation/health.py:5-58 | a failed status read yields only its error line. Otherwise the summary comes first. Then come the pods listed under `app=<name>`, or the no-pods line, or the listing's error line |
| `Health.UnsetReplicasProgressing` | k8s_automation/health.py:12-22 | an unset replica count makes the report Progressing (yellow) with total 0 |

## Left out

- `ensure_helm_installed` (k8s_automation/tooling.py:8-41): it looks up `helm` on the PATH, detects the platform and runs a curl install script. All of it is I/O.
- k8s_automation/cluster.py (loading the kubeconfig) and main.py (the click command wiring and the printed summary) are not part of this model.
- YAML parsing and Jinja2 rendering are inputs, not models. Floats and non-string mapping keys in YAML are not represented.
- Formatting of the ScaledObject name `f"{values['name']}-so"` is kept symbolic (`KubeClient.ObjectName`) when `name` is not a YAML string. Python would print that value's `str()`.
- Deployment.CreateKubernetesResources: its `except Exception` path is modelled only for template or YAML errors and for missing `name`/`namespace` keys. Other unexpected exceptions are not modelled.
- Health.GetDeploymentStatus: its generic `except Exception` path is not modelled, for example a status object that is `None`. `available_replicas` is read but never used by the source, so the model only carries it.
- Tooling.RunCommand: only a non-zero exit (`CalledProcessError`) is modelled. Other exceptions escape `run_command` in the source and are not modelled. The stderr text is not modelled.
- The fake API server stores a patch body verbatim. A real server applies a strategic merge to the stored object.
- A create of an object that exists would return 409 on a real server. The fake stores the body whatever the store holds; the 409 can only be injected as a create error.
- Deployment.Reconcile: the fake stores a created object under the key read from `values`. The real create takes the name from the manifest's `metadata.name`. The model assumes the templates name the objects `name` and `<name>-so` in `namespace`.
- Tooling.VerifyKedaInstallation: only `ApiException` answers are modelled. Any other exception from the read escapes the loop uncaught, for example a connection error. So does the `AttributeError` raised when a found Deployment has no status object (tooling.py:75).
- Terminal colours on echo lines, message wording, and the real duration of `time.sleep` are not modelled. Sleeps are events carrying their length.
