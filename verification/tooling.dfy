/** `k8s_automation/tooling.py`: the Helm command steps and the bounded poll
    that waits for the KEDA operator to become ready. */
module Tooling {
  import opened Base
  import opened KubeClient

  // ---------------------------------------------------------------------
  // Helm commands
  // ---------------------------------------------------------------------

  const RepoAddCommand: string := "helm repo add kedacore https://kedacore.github.io/charts"
  const RepoUpdateCommand: string := "helm repo update"
  const InstallChartCommand: string := "helm upgrade --install keda kedacore/keda --namespace keda --create-namespace"

  /** `run_command`: runs one shell command line; `exitStatus` gives the
      status each command line exits with. `ran` lists the commands run. */
  method RunCommand(command: string, exitStatus: string -> int) returns (ok: bool, ran: seq<string>)
    ensures ran == [command]
    ensures ok <==> exitStatus(command) == 0
  {
    ran := [command];
    var status := exitStatus(command);
    ok := status == 0;
  }

  /** `add_helm_repo`: add the repository, then refresh it, stopping at the
      first command that fails. */
  method AddHelmRepo(exitStatus: string -> int) returns (ok: bool, ran: seq<string>)
    ensures ok <==> exitStatus(RepoAddCommand) == 0 && exitStatus(RepoUpdateCommand) == 0
    ensures exitStatus(RepoAddCommand) != 0 ==> ran == [RepoAddCommand]
    ensures exitStatus(RepoAddCommand) == 0 ==> ran == [RepoAddCommand, RepoUpdateCommand]
  {
    var added, first := RunCommand(RepoAddCommand, exitStatus);
    ran := first;
    if !added {
      return false, ran;
    }
    var updated, second := RunCommand(RepoUpdateCommand, exitStatus);
    ran := ran + second;
    if !updated {
      return false, ran;
    }
    return true, ran;
  }

  /** `install_keda_chart`: one `helm upgrade --install` into namespace `keda`. */
  method InstallKedaChart(exitStatus: string -> int) returns (ok: bool, ran: seq<string>)
    ensures ran == [InstallChartCommand]
    ensures ok <==> exitStatus(InstallChartCommand) == 0
  {
    ok, ran := RunCommand(InstallChartCommand, exitStatus);
  }

  // ---------------------------------------------------------------------
  // Waiting for the KEDA operator
  // ---------------------------------------------------------------------

  const Retries: nat := 12
  const DelaySeconds: nat := 10
  const OperatorName: string := "keda-operator"
  const OperatorNamespace: string := "keda"

  /** What the poll does, in order: a read of a Deployment or a sleep. */
  datatype PollEvent = ReadDeployment(namespace: string, name: string) | Sleep(seconds: nat)

  /** The answer to one read of the operator Deployment: its
      `status.ready_replicas` (possibly `None`), or the API error raised. */
  type Answer = Result<Option<int>, ApiError>

  predicate IsReady(a: Answer)
  {
    a.Success? && a.value.Some? && a.value.value > 0
  }

  /** A 404 and a found-but-not-ready Deployment are both retried. */
  predicate Retryable(a: Answer)
  {
    (a.Failure? && a.error.status == NotFound) || (a.Success? && !IsReady(a))
  }

  /** The index, from `from` on and below `Retries`, of the first answer that
      ends the poll, if there is one. */
  function FirstDecisive(answer: nat -> Answer, from: nat): (r: Option<nat>)
    requires from <= Retries
    ensures r.None? ==> forall i :: from <= i < Retries ==> Retryable(answer(i))
    ensures r.Some? ==>
      && from <= r.value < Retries
      && !Retryable(answer(r.value))
      && forall i :: from <= i < r.value ==> Retryable(answer(i))
    decreases Retries - from
  {
    if from == Retries then None
    else if !Retryable(answer(from)) then Some(from)
    else FirstDecisive(answer, from + 1)
  }

  const ReadOperator: PollEvent := ReadDeployment(OperatorNamespace, OperatorName)

  /** `k` attempts that were retried: each a read followed by a sleep. */
  function Rounds(k: nat): seq<PollEvent>
  {
    if k == 0 then [] else Rounds(k - 1) + [ReadOperator, Sleep(DelaySeconds)]
  }

  function CountReads(events: seq<PollEvent>): nat
  {
    if events == [] then 0
    else CountReads(events[..|events| - 1]) + (if events[|events| - 1].ReadDeployment? then 1 else 0)
  }

  function CountSleeps(events: seq<PollEvent>): nat
  {
    if events == [] then 0
    else CountSleeps(events[..|events| - 1]) + (if events[|events| - 1].Sleep? then 1 else 0)
  }

  /** The poll's verdict: the first answer that ends it shows ready replicas. */
  function PollReady(answer: nat -> Answer): bool
  {
    match FirstDecisive(answer, 0)
    case None => false
    case Some(i) => IsReady(answer(i))
  }

  /** The events of a poll: a read and a sleep for every retried attempt,
      then the read that ended it, if one did. */
  function PollEvents(answer: nat -> Answer): seq<PollEvent>
  {
    match FirstDecisive(answer, 0)
    case None => Rounds(Retries)
    case Some(i) => Rounds(i) + [ReadOperator]
  }

  /** `verify_keda_installation`; `answer(i)` is the cluster's answer to the
      read made at attempt `i`. */
  method VerifyKedaInstallation(answer: nat -> Answer) returns (ready: bool, events: seq<PollEvent>)
    ensures ready == PollReady(answer)
    ensures events == PollEvents(answer)
  {
    events := [];
    for i := 0 to Retries
      invariant events == Rounds(i)
      invariant forall j :: 0 <= j < i ==> Retryable(answer(j))
    {
      var response := answer(i);
      events := events + [ReadOperator];
      if response.Success? {
        if response.value.Some? && response.value.value > 0 {
          return true, events;
        }
      } else if response.error.status != NotFound {
        return false, events;
      }
      events := events + [Sleep(DelaySeconds)];
    }
    return false, events;
  }

  lemma {:induction false} CountsAppend(a: seq<PollEvent>, b: seq<PollEvent>)
    ensures CountReads(a + b) == CountReads(a) + CountReads(b)
    ensures CountSleeps(a + b) == CountSleeps(a) + CountSleeps(b)
    decreases |b|
  {
    if b == [] {
      assert a + b == a;
    } else {
      var last := |b| - 1;
      assert (a + b)[..|a + b| - 1] == a + b[..last];
      CountsAppend(a, b[..last]);
    }
  }

  /** `k` retried attempts hold `k` reads of `keda-operator` in `keda` and
      `k` sleeps of ten seconds. */
  lemma {:induction false} RoundsCounts(k: nat)
    ensures CountReads(Rounds(k)) == k && CountSleeps(Rounds(k)) == k
    ensures forall e :: e in Rounds(k) ==> e == ReadOperator || e == Sleep(DelaySeconds)
  {
    if k > 0 {
      RoundsCounts(k - 1);
      CountsAppend(Rounds(k - 1), [ReadOperator, Sleep(DelaySeconds)]);
      var round := [ReadOperator, Sleep(DelaySeconds)];
      assert round[..1] == [ReadOperator] && [ReadOperator][..0] == [];
      assert CountReads([ReadOperator]) == 1 && CountSleeps([ReadOperator]) == 0;
      assert CountReads(round) == 1 && CountSleeps(round) == 1;
    }
  }


  /** At most twelve reads, all of `keda-operator` in `keda`; a sleep after
      every read but a decisive one, so twelve sleeps when the poll times out
      and one fewer sleep than reads otherwise. */
  lemma PollBounds(answer: nat -> Answer)
    ensures var events := PollEvents(answer);
      && CountReads(events) <= Retries
      && (forall e :: e in events ==> e == ReadOperator || e == Sleep(DelaySeconds))
      && (FirstDecisive(answer, 0).None? ==> CountReads(events) == Retries && CountSleeps(events) == Retries)
      && (FirstDecisive(answer, 0).Some? ==> CountSleeps(events) + 1 == CountReads(events))
  {
    match FirstDecisive(answer, 0)
    case None =>
      RoundsCounts(Retries);
    case Some(i) =>
      RoundsCounts(i);
      CountsAppend(Rounds(i), [ReadOperator]);
      assert [ReadOperator][..0] == [];
  }

  /** Answers that are 404 or not ready up to attempt `k`, then a ready one:
      the poll succeeds after `k + 1` reads and `k` sleeps. */
  lemma ReadyAtAttempt(answer: nat -> Answer, k: nat)
    requires k < Retries
    requires forall i :: 0 <= i < k ==> Retryable(answer(i))
    requires IsReady(answer(k))
    ensures PollReady(answer)
    ensures CountReads(PollEvents(answer)) == k + 1 && CountSleeps(PollEvents(answer)) == k
  {
    RoundsCounts(k);
    CountsAppend(Rounds(k), [ReadOperator]);
    assert [ReadOperator][..0] == [];
  }

  /** Eleven answers that are not ready followed by a ready one: the poll
      succeeds on its twelfth read. */
  lemma ReadyOnLastAttempt(answer: nat -> Answer)
    requires forall i :: 0 <= i < Retries - 1 ==> Retryable(answer(i))
    requires IsReady(answer(Retries - 1))
    ensures PollReady(answer)
    ensures CountReads(PollEvents(answer)) == Retries && CountSleeps(PollEvents(answer)) == Retries - 1
  {
    ReadyAtAttempt(answer, Retries - 1);
  }

  /** An API error other than 404 at attempt `k` ends the poll there, after
      `k + 1` reads, with no sleep for that attempt. */
  lemma FailsAtFirstError(answer: nat -> Answer, k: nat)
    requires k < Retries
    requires forall i :: 0 <= i < k ==> Retryable(answer(i))
    requires answer(k).Failure? && answer(k).error.status != NotFound
    ensures !PollReady(answer)
    ensures CountReads(PollEvents(answer)) == k + 1 && CountSleeps(PollEvents(answer)) == k
  {
    RoundsCounts(k);
    CountsAppend(Rounds(k), [ReadOperator]);
    assert [ReadOperator][..0] == [];
  }

  /** The poll succeeds exactly when, within twelve attempts, some answer
      shows ready replicas and every earlier answer was a 404 or not ready. */
  lemma PollReadyIff(answer: nat -> Answer)
    ensures PollReady(answer) <==>
      exists k :: 0 <= k < Retries && IsReady(answer(k)) && forall j :: 0 <= j < k ==> Retryable(answer(j))
  {
  }

  /** Twelve answers that are all 404 or not ready: the poll fails after
      twelve reads and twelve sleeps. */
  lemma TimesOut(answer: nat -> Answer)
    requires forall i :: 0 <= i < Retries ==> Retryable(answer(i))
    ensures !PollReady(answer)
    ensures CountReads(PollEvents(answer)) == Retries && CountSleeps(PollEvents(answer)) == Retries
  {
    RoundsCounts(Retries);
  }
}
