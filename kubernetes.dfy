/**
 * `KubernetesContainerManager`: the facade that submits the manifests to the
 * cluster's control plane.  The control plane is abstract: it answers the k-th
 * call it receives with `reply(k)`, and the model keeps the log of calls, the
 * live Deployments, Services and Ingresses by name, and the seconds spent
 * waiting between retries.  Each operation is specified by a function from the
 * old cluster to the new cluster and the result; the class's methods follow the
 * source step by step and are proved to agree with those functions.
 */
module Kubernetes {
  import opened Wrappers
  import opened Retry
  import opened Manifests
  import opened IngressConfig

  /** The client library calls the manager makes, all in namespace 'default' */
  datatype Call =
    | CreateNamespacedService(service: Service)
    | CreateNamespacedDeployment(deployment: Deployment)
    | DeleteNamespacedDeployment(name: string)
    | DeleteNamespacedService(name: string)
    | ListNamespacedIngress
    | CreateNamespacedIngress(ingress: Ingress)
    | ReplaceNamespacedIngress(name: string, ingress: Ingress)

  /** What an operation raises */
  datatype ManagerError =
    | ApiException(status: int)  // raised by the client library, propagated unchanged
    | ServiceRequestError        // the ingress listing did not answer with status 200
    | IndexError                 // the ingress body has no rule to take paths from

  /** `info` of the returned handle: `node_id`, `gpu_nos`, `service_name`, `replicas` */
  datatype ServiceInfo = ServiceInfo(nodeId: string, gpuNos: int, serviceName: string, replicas: int)

  /** The `ContainerService(id, hostname, port, info)` handle `create_service` returns */
  datatype ContainerService = ContainerService(id: string, hostname: string, port: Option<int>, info: ServiceInfo)

  /** The control plane as the manager sees it */
  datatype Cluster = Cluster(
    log: seq<Call>,
    deployments: map<string, Deployment>,
    services: map<string, Service>,
    ingresses: map<string, Ingress>,
    waitedSecs: nat)

  /** The cluster after it received `call` and answered it with `answer`: the call is
      logged; a call that returned normally takes effect on the live objects */
  function Apply(c: Cluster, call: Call, answer: Reply): Cluster {
    var logged := c.(log := c.log + [call]);
    if answer.Raised? then logged
    else
      match call
      case CreateNamespacedService(s) => logged.(services := c.services[s.metadata.name := s])
      case CreateNamespacedDeployment(d) => logged.(deployments := c.deployments[d.metadata.name := d])
      case DeleteNamespacedDeployment(name) => logged.(deployments := c.deployments - {name})
      case DeleteNamespacedService(name) => logged.(services := c.services - {name})
      case ListNamespacedIngress => logged
      case CreateNamespacedIngress(ing) => logged.(ingresses := c.ingresses[ing.metadata.name := ing])
      case ReplaceNamespacedIngress(name, ing) => logged.(ingresses := c.ingresses[name := ing])
  }

  /** One call issued, unretried */
  function Step(c: Cluster, reply: nat -> Reply, call: Call): (Cluster, Reply) {
    var answer := reply(|c.log|);
    (Apply(c, call, answer), answer)
  }

  function Repeat(call: Call, n: nat): (calls: seq<Call>)
    ensures |calls| == n && forall i :: 0 <= i < n ==> calls[i] == call
  {
    seq(n, _ => call)
  }

  /** The answers the next RETRY_TIMES + 1 calls would get */
  function Window(reply: nat -> Reply, first: nat): (w: seq<Reply>)
    ensures |w| == RETRY_TIMES + 1
  {
    seq(RETRY_TIMES + 1, j requires 0 <= j => reply(first + j))
  }

  /** The cluster after `k` failed attempts of `call`, each followed by a wait */
  function AfterFailures(c: Cluster, call: Call, k: nat): Cluster {
    c.(log := c.log + Repeat(call, k), waitedSecs := c.waitedSecs + k * RETRY_WAIT_SECS)
  }

  /** A failed attempt followed by a wait is one more failure */
  lemma FailedAttempt(c: Cluster, call: Call, k: nat, code: int)
    ensures var c' := Apply(AfterFailures(c, call, k), call, Raised(code));
      c'.(waitedSecs := c'.waitedSecs + RETRY_WAIT_SECS) == AfterFailures(c, call, k + 1)
  {
    assert Repeat(call, k) + [call] == Repeat(call, k + 1);
  }

  /** `_retry(call)`: the failed attempts and their waits, then the last attempt */
  function RetrySpec(c: Cluster, reply: nat -> Reply, call: Call): (Cluster, Reply) {
    var w := Window(reply, |c.log|);
    (Apply(AfterFailures(c, call, Attempts(w) - 1), call, Final(w)), Final(w))
  }

  /** Retrying stops after attempt `no` when that attempt returned or was the last allowed */
  lemma RetryStopsAt(c: Cluster, reply: nat -> Reply, call: Call, no: nat)
    requires no <= RETRY_TIMES
    requires forall j :: 0 <= j < no ==> Window(reply, |c.log|)[j].Raised?
    requires Window(reply, |c.log|)[no].Answered? || no == RETRY_TIMES
    ensures RetrySpec(c, reply, call) ==
      (Apply(AfterFailures(c, call, no), call, reply(|c.log| + no)), reply(|c.log| + no))
  {
    AttemptsExactly(Window(reply, |c.log|), no + 1);
  }

  /** The handle returned for a request whose objects were all created */
  function Handle(req: ServiceRequest): ContainerService {
    ContainerService(req.serviceName, req.serviceName,
      if req.publishPort.Some? then Some(req.publishPort.value.0) else None,
      ServiceInfo("default", req.gpus, req.serviceName, req.replicas))
  }

  /** The Service step of `create_service`: skipped without a published port */
  function PublishStep(c: Cluster, reply: nat -> Reply, req: ServiceRequest): (Cluster, Option<Reply>) {
    if req.publishPort.Some? then
      var (c1, answer) := RetrySpec(c, reply, CreateNamespacedService(ServiceConfig(req)));
      (c1, Some(answer))
    else (c, None)
  }

  /** `create_service`: the Service (if a port is published), then the Deployment,
      each retried; an exception that survives the retries propagates */
  function CreateServiceSpec(c: Cluster, reply: nat -> Reply, req: ServiceRequest)
    : (Cluster, Result<ContainerService, ManagerError>)
  {
    var (c1, published) := PublishStep(c, reply, req);
    if published.Some? && published.value.Raised? then (c1, Failure(ApiException(published.value.code)))
    else
      var (c2, answer) := RetrySpec(c1, reply, CreateNamespacedDeployment(DeploymentConfig(req)));
      if answer.Raised? then (c2, Failure(ApiException(answer.code)))
      else (c2, Success(Handle(req)))
  }

  /** `destroy_service`: delete the Deployment, then the Service, neither retried */
  function DestroyServiceSpec(c: Cluster, reply: nat -> Reply, service: ContainerService)
    : (Cluster, Outcome<ManagerError>)
  {
    var (c1, answer1) := Step(c, reply, DeleteNamespacedDeployment(service.id));
    if answer1.Raised? then (c1, Fail(ApiException(answer1.code)))
    else
      var (c2, answer2) := Step(c1, reply, DeleteNamespacedService(service.id));
      if answer2.Raised? then (c2, Fail(ApiException(answer2.code))) else (c2, Pass)
  }

  /** The call `update_ingress` makes once the listing shows which names are live */
  function IngressWrite(live: map<string, Ingress>, ingressName: string, manifest: Ingress): Call {
    if ingressName in live then ReplaceNamespacedIngress(ingressName, manifest)
    else CreateNamespacedIngress(manifest)
  }

  /** `update_ingress`: translate the paths, list the live ingresses, then replace
      the one named `ingress_name` or create it */
  function UpdateIngressSpec(c: Cluster, reply: nat -> Reply, ingressName: string, body: IngressBody)
    : (Cluster, Outcome<ManagerError>)
  {
    match IngressPaths(body)
    case None => (c, Fail(IndexError))
    case Some(paths) =>
      var manifest := IngressManifest(ingressName, paths);
      var (c1, listed) := Step(c, reply, ListNamespacedIngress);
      if listed.Raised? then (c1, Fail(ApiException(listed.code)))
      else if listed.status != 200 then (c1, Fail(ServiceRequestError))
      else
        var (c2, written) := Step(c1, reply, IngressWrite(c1.ingresses, ingressName, manifest));
        if written.Raised? then (c2, Fail(ApiException(written.code))) else (c2, Pass)
  }

  class KubernetesContainerManager {
    /** The control plane's answer to the k-th call it receives */
    const reply: nat -> Reply

    var log: seq<Call>
    var deployments: map<string, Deployment>
    var services: map<string, Service>
    var ingresses: map<string, Ingress>
    var waitedSecs: nat

    function State(): Cluster
      reads this
    {
      Cluster(log, deployments, services, ingresses, waitedSecs)
    }

    /** A manager connected to a control plane in state `cluster` */
    constructor (reply: nat -> Reply, cluster: Cluster)
      ensures this.reply == reply && State() == cluster
    {
      this.reply := reply;
      log, deployments, services, ingresses, waitedSecs :=
        cluster.log, cluster.deployments, cluster.services, cluster.ingresses, cluster.waitedSecs;
    }

    /** One round trip to the control plane */
    method Issue(call: Call) returns (answer: Reply)
      modifies this
      ensures (State(), answer) == Step(old(State()), reply, call)
    {
      answer := reply(|log|);
      var next := Apply(State(), call, answer);
      log, deployments, services, ingresses := next.log, next.deployments, next.services, next.ingresses;
    }

    /** `_retry(call)`: attempt; while the attempt raised and retries are left, wait and attempt again */
    method Retry(call: Call) returns (answer: Reply)
      modifies this
      ensures (State(), answer) == RetrySpec(old(State()), reply, call)
    {
      ghost var c0 := State();
      ghost var w := Window(reply, |log|);
      var no: nat := 0;
      answer := Issue(call);
      while answer.Raised? && no < RETRY_TIMES
        invariant no <= RETRY_TIMES
        invariant answer == reply(|c0.log| + no) == w[no]
        invariant forall j :: 0 <= j < no ==> w[j].Raised?
        invariant State() == Apply(AfterFailures(c0, call, no), call, answer)
        decreases RETRY_TIMES - no
      {
        FailedAttempt(c0, call, no, answer.code);
        waitedSecs := waitedSecs + RETRY_WAIT_SECS;
        no := no + 1;
        assert State() == AfterFailures(c0, call, no);
        assert |log| == |c0.log| + no;
        answer := Issue(call);
      }
      RetryStopsAt(c0, reply, call, no);
    }

    method CreateService(req: ServiceRequest) returns (r: Result<ContainerService, ManagerError>)
      modifies this
      ensures (State(), r) == CreateServiceSpec(old(State()), reply, req)
    {
      var hostname := req.serviceName;
      if req.publishPort.Some? {
        var serviceConfig := ServiceConfig(req);
        var serviceObj := Retry(CreateNamespacedService(serviceConfig));
        if serviceObj.Raised? {
          return Failure(ApiException(serviceObj.code));
        }
      }
      var deploymentConfig := CreateDeploymentConfig(req);
      var deploymentObj := Retry(CreateNamespacedDeployment(deploymentConfig));
      if deploymentObj.Raised? {
        return Failure(ApiException(deploymentObj.code));
      }
      var info := ServiceInfo("default", req.gpus, req.serviceName, req.replicas);
      var port := if req.publishPort.Some? then Some(req.publishPort.value.0) else None;
      r := Success(ContainerService(req.serviceName, hostname, port, info));
    }

    method DestroyService(service: ContainerService) returns (r: Outcome<ManagerError>)
      modifies this
      ensures (State(), r) == DestroyServiceSpec(old(State()), reply, service)
    {
      var answer := Issue(DeleteNamespacedDeployment(service.id));
      if answer.Raised? {
        return Fail(ApiException(answer.code));
      }
      answer := Issue(DeleteNamespacedService(service.id));
      if answer.Raised? {
        return Fail(ApiException(answer.code));
      }
      r := Pass;
    }

    method UpdateIngress(ingressName: string, body: IngressBody) returns (r: Outcome<ManagerError>)
      modifies this
      ensures (State(), r) == UpdateIngressSpec(old(State()), reply, ingressName, body)
    {
      var paths := UpdateIngressPaths(body);
      if paths.None? {
        return Fail(IndexError);
      }
      var manifest := IngressManifest(ingressName, paths.value);
      var ingressList := Issue(ListNamespacedIngress);
      if ingressList.Raised? {
        return Fail(ApiException(ingressList.code));
      }
      if ingressList.status != 200 {
        return Fail(ServiceRequestError);
      }
      var ingressNames := ingresses.Keys;
      var written: Reply;
      if ingressName in ingressNames {
        written := Issue(ReplaceNamespacedIngress(ingressName, manifest));
      } else {
        written := Issue(CreateNamespacedIngress(manifest));
      }
      if written.Raised? {
        return Fail(ApiException(written.code));
      }
      r := Pass;
    }
  }
}
