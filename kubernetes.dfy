/**
 * Helpers of the `shared/kubernetes` package: the cluster classification,
 * the default kubeconfig, the ingress guess, the start/stop/restart of a
 * deployment through its replica count, and the secret lookup.
 *
 * kubectl results, environment values and file existence are inputs; the
 * kubectl calls that change the cluster are operations whose success the
 * model does not decide.
 */
module Kubernetes {
  import opened Wrappers
  import opened GoStrings
  import Base64

  /** `ClusterInfos`: the kubelet version string and the guessed ingress. */
  datatype ClusterInfos = ClusterInfos(kubeletVersion: string, ingress: string)

  const K3sKubeconfig: string := "/etc/rancher/k3s/k3s.yaml"
  const NginxController: string := "/nginx-ingress-controller"

  /** `IsK3s`: the kubelet version mentions k3s. */
  function IsK3s(infos: ClusterInfos): (r: bool)
    ensures r <==> exists i :: OccursAt(infos.kubeletVersion, "k3s", i)
  {
    Contains(infos.kubeletVersion, "k3s")
  }

  /** `IsRke2`: the kubelet version mentions rke2. */
  function IsRke2(infos: ClusterInfos): (r: bool)
    ensures r <==> exists i :: OccursAt(infos.kubeletVersion, "rke2", i)
  {
    Contains(infos.kubeletVersion, "rke2")
  }

  /** `GetKubeconfig`: on K3s, the K3s kubeconfig is the default unless the
      user set KUBECONFIG and has a `~/.kube/config` file; otherwise there is
      no default (""). */
  function GetKubeconfig(infos: ClusterInfos, kubeconfigEnv: string, homeConfigExists: bool): (r: string)
    ensures r == "" || r == K3sKubeconfig
    ensures r == K3sKubeconfig <==> IsK3s(infos) && (kubeconfigEnv == "" || !homeConfigExists)
  {
    if IsK3s(infos) && (kubeconfigEnv == "" || !homeConfigExists) then K3sKubeconfig else ""
  }

  datatype KubeError =
    | KubeletVersionFailed
    | PodListingFailed
    | ScaleFailed(filter: string, replicas: nat)
    | CannotStop(filter: string, cause: KubeError)
    | GetSecretFailed(name: string)
    | SecretDecodeFailed(name: string)

  /** `guessIngress`: `explainOk` is whether `kubectl explain ingressroutetcp`
      succeeds and `pods` the output of the pod listing (`None` when it
      fails); the listing only matters when the explain fails. */
  function GuessIngress(explainOk: bool, pods: Option<string>): (r: Result<string, KubeError>)
    ensures r == Success("traefik") <==> explainOk
    ensures r.Failure? <==> !explainOk && pods.None?
    ensures r == Success("nginx") <==>
              !explainOk && pods.Some? && exists i :: OccursAt(pods.value, NginxController, i)
    ensures r.Success? ==> r.value in {"traefik", "nginx", ""}
  {
    if explainOk then Success("traefik")
    else if pods.None? then Failure(PodListingFailed)
    else if Contains(pods.value, NginxController) then Success("nginx")
    else Success("")
  }

  /** `CheckCluster`: the kubelet version, then the ingress guess; either
      failure is the result. */
  function CheckCluster(kubeletOut: Option<string>, explainOk: bool, pods: Option<string>)
    : (r: Result<ClusterInfos, KubeError>)
    ensures kubeletOut.None? ==> r == Failure(KubeletVersionFailed)
    ensures r.Success? <==> kubeletOut.Some? && GuessIngress(explainOk, pods).Success?
    ensures r.Success? ==>
              r.value.kubeletVersion == kubeletOut.value
              && r.value.ingress == GuessIngress(explainOk, pods).value
  {
    if kubeletOut.None? then Failure(KubeletVersionFailed)
    else
      match GuessIngress(explainOk, pods)
      case Failure(e) => Failure(e)
      case Success(ingress) => Success(ClusterInfos(kubeletOut.value, ingress))
  }

  /** `GetSecret(name, filter)`: `out` is the output of `kubectl get secret`
      (`None` when it fails); the secret is its base64 decoding. */
  function GetSecret(name: string, out: Option<string>): (r: Result<seq<Base64.Byte>, KubeError>)
    ensures out.None? ==> r == Failure(GetSecretFailed(name))
    ensures out.Some? ==> (r == Failure(SecretDecodeFailed(name)) <==> Base64.Decode(out.value).None?)
    ensures r.Success? ==> out.Some? && Base64.Decode(out.value) == Some(r.value)
  {
    if out.None? then Failure(GetSecretFailed(name))
    else
      match Base64.Decode(out.value)
      case None => Failure(SecretDecodeFailed(name))
      case Some(decoded) => Success(decoded)
  }

  /** A secret stored as base64 is read back unchanged. */
  lemma GetSecretOfEncoded(name: string, secret: seq<Base64.Byte>)
    ensures GetSecret(name, Some(Base64.Encode(secret))) == Success(secret)
  {
    Base64.DecodeEncode(secret);
  }

  /** The kubectl calls that the start/stop helpers issue. */
  datatype Call = Scale(filter: string, replicas: nat) | GetNode(filter: string)

  /** The deployments of a cluster, by filter, with their replica counts, and
      the kubectl calls issued so far. */
  class Cluster {
    var replicas: map<string, nat>
    var calls: seq<Call>

    constructor(initial: map<string, nat>)
      ensures replicas == initial && calls == []
    {
      replicas := initial;
      calls := [];
    }

    /** `ReplicasTo(filter, n)`: scales the deployment; it may fail, and then
        nothing changes. */
    method ReplicasTo(filter: string, n: nat) returns (err: Option<KubeError>)
      modifies this
      ensures calls == old(calls) + [Scale(filter, n)]
      ensures err.None? ==> replicas == old(replicas)[filter := n]
      ensures err.Some? ==> err == Some(ScaleFailed(filter, n)) && replicas == old(replicas)
    {
      calls := calls + [Scale(filter, n)];
      var ok := *;
      if ok {
        replicas := replicas[filter := n];
        err := None;
      } else {
        err := Some(ScaleFailed(filter, n));
      }
    }

    /** `GetNode(filter)`: the node a pod of the deployment runs on, if one
        is found. */
    method FindNode(filter: string) returns (found: bool)
      modifies this
      ensures calls == old(calls) + [GetNode(filter)]
      ensures replicas == old(replicas)
    {
      calls := calls + [GetNode(filter)];
      found := *;
    }

    /** `Stop(filter)`: scale to zero replicas. */
    method Stop(filter: string) returns (err: Option<KubeError>)
      modifies this
      ensures calls == old(calls) + [Scale(filter, 0)]
      ensures err.None? ==> replicas == old(replicas)[filter := 0]
      ensures err.Some? ==> replicas == old(replicas)
    {
      err := ReplicasTo(filter, 0);
    }

    /** `Start(filter)`: when no node is found for the deployment, scale it to
        one replica; when one is, it is already running and nothing changes. */
    method Start(filter: string) returns (err: Option<KubeError>)
      modifies this
      ensures |calls| >= |old(calls)| + 1 && calls[..|old(calls)| + 1] == old(calls) + [GetNode(filter)]
      ensures calls == old(calls) + [GetNode(filter)] ==> err.None? && replicas == old(replicas)
      ensures calls != old(calls) + [GetNode(filter)] ==>
                && calls == old(calls) + [GetNode(filter), Scale(filter, 1)]
                && (err.None? ==> replicas == old(replicas)[filter := 1])
                && (err.Some? ==> replicas == old(replicas))
    {
      var found := FindNode(filter);
      if !found {
        err := ReplicasTo(filter, 1);
      } else {
        err := None;
      }
    }

    /** `Restart(filter)`: stop, then start; when the stop fails the start is
        not attempted and the error says the deployment could not be stopped. */
    method Restart(filter: string) returns (err: Option<KubeError>)
      modifies this
      ensures |calls| >= |old(calls)| + 1 && calls[..|old(calls)| + 1] == old(calls) + [Scale(filter, 0)]
      ensures calls == old(calls) + [Scale(filter, 0)] ==>
                err.Some? && err.value.CannotStop? && replicas == old(replicas)
      ensures calls != old(calls) + [Scale(filter, 0)] ==>
                || calls == old(calls) + [Scale(filter, 0), GetNode(filter)]
                || calls == old(calls) + [Scale(filter, 0), GetNode(filter), Scale(filter, 1)]
      // A node found right after the stop counts as running: the deployment
      // stays at zero replicas.
      ensures calls == old(calls) + [Scale(filter, 0), GetNode(filter)] ==>
                err.None? && replicas == old(replicas)[filter := 0]
      ensures calls == old(calls) + [Scale(filter, 0), GetNode(filter), Scale(filter, 1)] ==>
                && (err.None? ==> replicas == old(replicas)[filter := 1])
                && (err.Some? ==> replicas == old(replicas)[filter := 0])
    {
      err := Stop(filter);
      if err.Some? {
        err := Some(CannotStop(filter, err.value));
        return;
      }
      ghost var stopped := calls;
      err := Start(filter);
      assert calls[..|stopped|] == stopped;
    }
  }
}
