/** `k8s_automation/health.py`: a one-shot status report of a Deployment and
    of the pods its label selector matches. */
module Health {
  import opened Base
  import opened KubeClient

  datatype Colour = Green | Yellow | Red

  datatype HealthStatus = Healthy | Progressing

  /** The replica counts of a Deployment's status; each may be unset. */
  datatype ReplicaStatus = ReplicaStatus(
    replicas: Option<int>,
    readyReplicas: Option<int>,
    availableReplicas: Option<int>)

  datatype Pod = Pod(name: string, phase: Option<string>)

  /** One line of the report, without its terminal styling. */
  datatype ReportLine =
    | Title(deployment: string)
    | NamespaceLine(namespace: string)
    | HealthLine(status: HealthStatus, colour: Colour)
    | ReplicasLine(ready: int, total: int)
    | PodsHeading
    | NoPods
    | PodLine(pod: string, phase: Option<string>, colour: Colour)
    | NotFoundError(deployment: string, namespace: string)
    | ApiErrorLine(reason: string)

  /** Python's `count or 0`: an unset count reads as zero. */
  function OrZero(count: Option<int>): (n: int)
    ensures count.None? ==> n == 0
    ensures count.Some? ==> n == count.value
  {
    match count
    case None => 0
    case Some(c) => c
  }

  /** Healthy exactly when there are replicas and all of them are ready. */
  function Classify(total: int, ready: int): (h: HealthStatus)
    ensures h == Healthy <==> total > 0 && ready == total
    ensures total <= 0 ==> h == Progressing
  {
    if total > 0 && ready == total then Healthy else Progressing
  }

  function HealthColour(h: HealthStatus): (c: Colour)
    ensures c == Green <==> h == Healthy
    ensures c == Yellow <==> h == Progressing
  {
    match h
    case Healthy => Green
    case Progressing => Yellow
  }

  /** Running is green, Pending yellow, and any other phase, unset included,
      red. */
  function PhaseColour(phase: Option<string>): (c: Colour)
    ensures c == Green <==> phase == Some("Running")
    ensures c == Yellow <==> phase == Some("Pending")
    ensures c == Red <==> phase != Some("Running") && phase != Some("Pending")
  {
    if phase == Some("Running") then Green
    else if phase == Some("Pending") then Yellow
    else Red
  }

  /** The pods of a Deployment are those labelled `app=<name>`. */
  function LabelSelector(name: string): (s: string)
    ensures |s| == |name| + 4
    ensures s[..4] == "app=" && s[4..] == name
  {
    "app=" + name
  }

  /** The message of the `except client.ApiException` block, whichever call
      raised it. */
  function ErrorLine(e: ApiError, name: string, namespace: string): (line: ReportLine)
    ensures line.NotFoundError? <==> e.status == NotFound
    ensures line.NotFoundError? ==> line == NotFoundError(name, namespace)
    ensures line.ApiErrorLine? <==> e.status != NotFound
    ensures line.ApiErrorLine? ==> line.reason == e.reason
  {
    if e.status == NotFound then NotFoundError(name, namespace) else ApiErrorLine(e.reason)
  }

  /** The lines printed before the pods are listed. */
  function Summary(name: string, namespace: string, status: ReplicaStatus): (lines: seq<ReportLine>)
    ensures |lines| == 5 && lines[0] == Title(name) && lines[1] == NamespaceLine(namespace)
    ensures lines[2].HealthLine? && lines[3].ReplicasLine? && lines[4] == PodsHeading
    ensures lines[2].colour == HealthColour(lines[2].status)
    ensures lines[2].status == Healthy <==>
      OrZero(status.replicas) > 0 && OrZero(status.readyReplicas) == OrZero(status.replicas)
    ensures lines[3].ready == OrZero(status.readyReplicas) && lines[3].total == OrZero(status.replicas)
  {
    var total := OrZero(status.replicas);
    var ready := OrZero(status.readyReplicas);
    var health := Classify(total, ready);
    [Title(name), NamespaceLine(namespace), HealthLine(health, HealthColour(health)),
     ReplicasLine(ready, total), PodsHeading]
  }

  /** The loop over `pod_list.items`: one line per pod, in list order, or a
      single "no pods" line for an empty list. */
  method ReportPods(pods: seq<Pod>) returns (lines: seq<ReportLine>)
    ensures pods == [] ==> lines == [NoPods]
    ensures pods != [] ==> |lines| == |pods|
    ensures pods != [] ==> forall i :: 0 <= i < |pods| ==>
      lines[i] == PodLine(pods[i].name, pods[i].phase, PhaseColour(pods[i].phase))
  {
    if pods == [] {
      return [NoPods];
    }
    lines := [];
    for i := 0 to |pods|
      invariant |lines| == i
      invariant forall j :: 0 <= j < i ==>
        lines[j] == PodLine(pods[j].name, pods[j].phase, PhaseColour(pods[j].phase))
    {
      var colour;
      if pods[i].phase == Some("Running") {
        colour := Green;
      } else if pods[i].phase == Some("Pending") {
        colour := Yellow;
      } else {
        colour := Red;
      }
      lines := lines + [PodLine(pods[i].name, pods[i].phase, colour)];
    }
  }

  /** `get_deployment_status`. `readStatus(namespace, name)` answers the read
      of the Deployment's status and `listPods(namespace, selector)` the pod
      listing. */
  method GetDeploymentStatus(name: string, namespace: string,
                             readStatus: (string, string) -> Result<ReplicaStatus, ApiError>,
                             listPods: (string, string) -> Result<seq<Pod>, ApiError>)
    returns (lines: seq<ReportLine>)
    ensures readStatus(namespace, name).Failure? ==>
      lines == [ErrorLine(readStatus(namespace, name).error, name, namespace)]
    ensures readStatus(namespace, name).Success? ==>
      |lines| > 5 && lines[..5] == Summary(name, namespace, readStatus(namespace, name).value)
    ensures readStatus(namespace, name).Success? ==>
      var pods := listPods(namespace, "app=" + name);
      && (pods.Failure? ==> lines[5..] == [ErrorLine(pods.error, name, namespace)])
      && (pods.Success? && pods.value == [] ==> lines[5..] == [NoPods])
      && (pods.Success? && pods.value != [] ==>
            && |lines| == 5 + |pods.value|
            && forall i :: 0 <= i < |pods.value| ==>
                 lines[5 + i] == PodLine(pods.value[i].name, pods.value[i].phase, PhaseColour(pods.value[i].phase)))
  {
    var status := readStatus(namespace, name);
    if status.Failure? {
      return [ErrorLine(status.error, name, namespace)];
    }
    lines := Summary(name, namespace, status.value);
    var pods := listPods(namespace, LabelSelector(name));
    if pods.Failure? {
      return lines + [ErrorLine(pods.error, name, namespace)];
    }
    var podLines := ReportPods(pods.value);
    lines := lines + podLines;
  }

  /** Unset replica counts read as zero, so a Deployment whose status reports
      no replicas is never healthy. */
  lemma UnsetReplicasProgressing(name: string, namespace: string, status: ReplicaStatus)
    requires status.replicas.None?
    ensures Summary(name, namespace, status)[2] == HealthLine(Progressing, Yellow)
    ensures Summary(name, namespace, status)[3].total == 0
  {
  }
}
