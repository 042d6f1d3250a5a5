/**
 * What `create_service`, `destroy_service` and `update_ingress` promise about
 * the calls they issue and the objects left live on the cluster, for every
 * sequence of answers from the control plane, a call that raised being taken
 * to have had no effect.
 */
module ManagerProperties {
  import opened Wrappers
  import opened Retry
  import opened Manifests
  import opened IngressConfig
  import opened Kubernetes

  /** The live objects other than the call log and the wait counter */
  predicate SameObjects(c: Cluster, c': Cluster) {
    c'.deployments == c.deployments && c'.services == c.services && c'.ingresses == c.ingresses
  }

  // ---------------------------------------------------------------------------
  // _retry
  // ---------------------------------------------------------------------------

  /** A retried call is issued `n` times, 1 <= n <= RETRY_TIMES + 1, with n - 1 waits;
      it takes effect once if the last attempt returned and not at all otherwise, and
      an exception reaches the caller only after all RETRY_TIMES + 1 attempts raised. */
  lemma RetryAttempts(c: Cluster, reply: nat -> Reply, call: Call) returns (n: nat)
    ensures var (c', answer) := RetrySpec(c, reply, call);
      && 1 <= n <= RETRY_TIMES + 1
      && c'.log == c.log + Repeat(call, n)
      && c'.waitedSecs == c.waitedSecs + (n - 1) * RETRY_WAIT_SECS
      && c'.waitedSecs == c.waitedSecs + WaitedSecs(Window(reply, |c.log|))
      && answer == reply(|c.log| + n - 1)
      && (forall j :: 0 <= j < n - 1 ==> Window(reply, |c.log|)[j].Raised?)
      && (answer.Raised? ==> n == RETRY_TIMES + 1 && SameObjects(c, c'))
      && (answer.Answered? ==> SameObjects(Apply(c, call, answer), c'))
  {
    var w := Window(reply, |c.log|);
    n := Attempts(w);
    assert Repeat(call, n - 1) + [call] == Repeat(call, n);
  }

  // ---------------------------------------------------------------------------
  // create_service
  // ---------------------------------------------------------------------------

  /** `create_service` issues `k` Service creations and then `m` Deployment creations,
      nothing else: a Service creation exactly when a port is published, each creation
      retried at most RETRY_TIMES + 1 times, and the Deployment is attempted exactly
      unless all RETRY_TIMES + 1 Service creations raised.  The operation fails exactly
      when the last call it issued raised, with that call's exception. */
  lemma CreateServiceCalls(c: Cluster, reply: nat -> Reply, req: ServiceRequest) returns (k: nat, m: nat)
    ensures var (c', r) := CreateServiceSpec(c, reply, req);
      && c'.log == c.log + Repeat(CreateNamespacedService(ServiceConfig(req)), k)
                         + Repeat(CreateNamespacedDeployment(DeploymentConfig(req)), m)
      && (k == 0 <==> req.publishPort.None?)
      && k <= RETRY_TIMES + 1 && m <= RETRY_TIMES + 1
      && (m == 0 ==> k == RETRY_TIMES + 1 && r.Failure?)
      && (m == 0 <==>
            && req.publishPort.Some?
            && forall j :: 0 <= j < |Window(reply, |c.log|)| ==> Window(reply, |c.log|)[j].Raised?)
      && (r.Success? ==> m >= 1)
      && (r.Failure? <==> reply(|c.log| + k + m - 1).Raised?)
      && (r.Failure? ==> r.error == ApiException(reply(|c.log| + k + m - 1).code))
  {
    RetryGivesUp(Window(reply, |c.log|));
    var (c1, published) := PublishStep(c, reply, req);
    if req.publishPort.Some? {
      k := RetryAttempts(c, reply, CreateNamespacedService(ServiceConfig(req)));
    } else {
      k := 0;
    }
    if published.Some? && published.value.Raised? {
      m := 0;
    } else {
      m := RetryAttempts(c1, reply, CreateNamespacedDeployment(DeploymentConfig(req)));
    }
  }

  /** On success the handle is named after the service, exposes the published node port,
      and both objects are live under the service name; nothing else on the cluster
      changes, and at most 2 * RETRY_TIMES waits were spent. */
  lemma CreateServiceResult(c: Cluster, reply: nat -> Reply, req: ServiceRequest)
    ensures var (c', r) := CreateServiceSpec(c, reply, req);
      && c'.ingresses == c.ingresses
      && c'.waitedSecs <= c.waitedSecs + 2 * RETRY_TIMES * RETRY_WAIT_SECS
      && (r.Success? ==>
            && r.value.id == req.serviceName && r.value.hostname == req.serviceName
            && r.value.port == (if req.publishPort.Some? then Some(req.publishPort.value.0) else None)
            && r.value.info == ServiceInfo("default", req.gpus, req.serviceName, req.replicas)
            && c'.deployments == c.deployments[req.serviceName := DeploymentConfig(req)]
            && c'.services == (if req.publishPort.Some? then c.services[req.serviceName := ServiceConfig(req)] else c.services))
  {
    var (c1, published) := PublishStep(c, reply, req);
    if req.publishPort.Some? {
      var _ := RetryAttempts(c, reply, CreateNamespacedService(ServiceConfig(req)));
    }
    if !(published.Some? && published.value.Raised?) {
      var _ := RetryAttempts(c1, reply, CreateNamespacedDeployment(DeploymentConfig(req)));
    }
  }

  /** The port in the returned handle is the node port the live Service actually opens */
  lemma HandleMatchesLiveService(c: Cluster, reply: nat -> Reply, req: ServiceRequest)
    requires CreateServiceSpec(c, reply, req).1.Success?
    requires req.publishPort.Some?
    ensures var (c', r) := CreateServiceSpec(c, reply, req);
      && req.serviceName in c'.services
      && PublishedPorts(c'.services[req.serviceName]).Some?
      && r.value.port == Some(PublishedPorts(c'.services[req.serviceName]).value.0)
  {
    CreateServiceResult(c, reply, req);
    ServicePortRule(req);
  }

  /** No rollback: when the Service was created and the Deployment then gave up,
      the Service stays live and no Deployment was added */
  lemma CreateServiceLeavesOrphan(c: Cluster, reply: nat -> Reply, req: ServiceRequest)
    requires req.publishPort.Some?
    requires PublishStep(c, reply, req).1.value.Answered?
    requires CreateServiceSpec(c, reply, req).1.Failure?
    ensures var (c', r) := CreateServiceSpec(c, reply, req);
      && c'.services == c.services[req.serviceName := ServiceConfig(req)]
      && c'.deployments == c.deployments
  {
    var c1 := PublishStep(c, reply, req).0;
    var _ := RetryAttempts(c, reply, CreateNamespacedService(ServiceConfig(req)));
    var _ := RetryAttempts(c1, reply, CreateNamespacedDeployment(DeploymentConfig(req)));
  }

  /** When no Service was created (none was published, or all its creations raised)
      and the operation failed, nothing is left live that was not live before */
  lemma CreateServiceFailureLeavesNothing(c: Cluster, reply: nat -> Reply, req: ServiceRequest)
    requires CreateServiceSpec(c, reply, req).1.Failure?
    requires req.publishPort.None? || PublishStep(c, reply, req).1.value.Raised?
    ensures SameObjects(c, CreateServiceSpec(c, reply, req).0)
  {
    var (c1, published) := PublishStep(c, reply, req);
    if req.publishPort.Some? {
      var _ := RetryAttempts(c, reply, CreateNamespacedService(ServiceConfig(req)));
    } else {
      var _ := RetryAttempts(c1, reply, CreateNamespacedDeployment(DeploymentConfig(req)));
    }
  }

  // ---------------------------------------------------------------------------
  // destroy_service
  // ---------------------------------------------------------------------------

  /** `destroy_service` deletes the Deployment, then the Service, once each: the Service
      deletion is issued exactly when the Deployment deletion returned; it succeeds when
      both returned, and then neither object is live any more.  When only the Service
      deletion raised, the Deployment is gone, the Service stays live and that exception
      propagates. */
  lemma DestroyServiceCalls(c: Cluster, reply: nat -> Reply, service: ContainerService)
    ensures var (c', r) := DestroyServiceSpec(c, reply, service);
      var first := reply(|c.log|);
      && c'.log == c.log + [DeleteNamespacedDeployment(service.id)]
                         + (if first.Answered? then [DeleteNamespacedService(service.id)] else [])
      && c'.waitedSecs == c.waitedSecs && c'.ingresses == c.ingresses
      && (r.Pass? <==> first.Answered? && reply(|c.log| + 1).Answered?)
      && (first.Raised? ==> SameObjects(c, c') && r == Fail(ApiException(first.code)))
      && (first.Answered? && reply(|c.log| + 1).Raised? ==>
            && c'.deployments == c.deployments - {service.id} && c'.services == c.services
            && r == Fail(ApiException(reply(|c.log| + 1).code)))
      && (r.Pass? ==> c'.deployments == c.deployments - {service.id} && c'.services == c.services - {service.id})
  {
  }

  /** Destroying the handle `create_service` returned leaves the live objects not named
      `service_name` as they were before the creation */
  lemma CreateThenDestroy(c: Cluster, reply: nat -> Reply, req: ServiceRequest)
    requires CreateServiceSpec(c, reply, req).1.Success?
    requires var (c1, r) := CreateServiceSpec(c, reply, req);
      DestroyServiceSpec(c1, reply, r.value).1.Pass?
    ensures var (c1, r) := CreateServiceSpec(c, reply, req);
      var c2 := DestroyServiceSpec(c1, reply, r.value).0;
      && c2.deployments == c.deployments - {req.serviceName}
      && c2.services == c.services - {req.serviceName}
      && c2.ingresses == c.ingresses
  {
    CreateServiceResult(c, reply, req);
    var (c1, r) := CreateServiceSpec(c, reply, req);
    DestroyServiceCalls(c1, reply, r.value);
  }

  // ---------------------------------------------------------------------------
  // update_ingress
  // ---------------------------------------------------------------------------

  /** A body without rules fails before any call is made */
  lemma UpdateIngressWithoutRule(c: Cluster, reply: nat -> Reply, ingressName: string, body: IngressBody)
    requires body.rules == []
    ensures UpdateIngressSpec(c, reply, ingressName, body) == (c, Fail(IndexError))
  {
  }

  /** A listing that raises or answers with a status other than 200 fails the update after
      the listing call alone: neither a creation nor a replacement is issued. */
  lemma UpdateIngressListingFails(c: Cluster, reply: nat -> Reply, ingressName: string, body: IngressBody)
    requires body.rules != []
    requires reply(|c.log|) != Answered(200)
    ensures var (c', r) := UpdateIngressSpec(c, reply, ingressName, body);
      && c'.log == c.log + [ListNamespacedIngress]
      && SameObjects(c, c') && c'.waitedSecs == c.waitedSecs
      && r == Fail(if reply(|c.log|).Raised? then ApiException(reply(|c.log|).code) else ServiceRequestError)
  {
  }

  /** After a listing with status 200, exactly one write follows: a replacement when
      `ingress_name` is live, a creation when it is not.  On success the Ingress under
      that name is the new manifest as a whole (earlier paths are dropped) and nothing
      else changes. */
  lemma UpdateIngressCreateOrReplace(c: Cluster, reply: nat -> Reply, ingressName: string, body: IngressBody)
    requires body.rules != []
    requires reply(|c.log|) == Answered(200)
    ensures var (c', r) := UpdateIngressSpec(c, reply, ingressName, body);
      var manifest := IngressManifest(ingressName, IngressPaths(body).value);
      && c'.log == c.log + [ListNamespacedIngress,
           if ingressName in c.ingresses then ReplaceNamespacedIngress(ingressName, manifest)
           else CreateNamespacedIngress(manifest)]
      && c'.deployments == c.deployments && c'.services == c.services && c'.waitedSecs == c.waitedSecs
      && (r.Pass? <==> reply(|c.log| + 1).Answered?)
      && (r.Pass? ==> c'.ingresses == c.ingresses[ingressName := manifest])
      && (r.Fail? ==> c'.ingresses == c.ingresses && r.error == ApiException(reply(|c.log| + 1).code))
  {
  }

  /** Repeating a successful update with the same body is a replacement that leaves the
      live Ingresses as the first update left them */
  lemma UpdateIngressIdempotent(c: Cluster, reply: nat -> Reply, ingressName: string, body: IngressBody)
    requires UpdateIngressSpec(c, reply, ingressName, body).1.Pass?
    requires var c1 := UpdateIngressSpec(c, reply, ingressName, body).0;
      UpdateIngressSpec(c1, reply, ingressName, body).1.Pass?
    ensures var c1 := UpdateIngressSpec(c, reply, ingressName, body).0;
      var c2 := UpdateIngressSpec(c1, reply, ingressName, body).0;
      && c2.ingresses == c1.ingresses
      && c2.log[|c2.log| - 1].ReplaceNamespacedIngress?
  {
    var c1 := UpdateIngressSpec(c, reply, ingressName, body).0;
    UpdateIngressCreateOrReplace(c, reply, ingressName, body);
    UpdateIngressCreateOrReplace(c1, reply, ingressName, body);
  }
}
