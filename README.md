# Kubernetes orchestration adapter of singa-auto, in Dafny

This project models `KubernetesContainerManager`, the part of singa-auto that
runs a container image as a long-lived service on a Kubernetes cluster. The
model covers five parts:

- **Manifests.** A service request becomes a Deployment. The Deployment has one
  container, the environment variables in order, a host-path volume plus a mount
  per entry of `mounts`, named `v0`, `v1`, ..., and a GPU limit when `gpus > 0`.
  When a port is published, the request also becomes a NodePort Service
  (`manifests.dfy`).
- **Ingress paths.** The caller's ingress body is translated, path by path, into
  the client library's path objects. These are wrapped in the Ingress named
  `ingress_name` (`ingress.dfy`).
- **Bounded retry.** A failing call is attempted at most `RETRY_TIMES + 1 = 6`
  times, with a wait of `RETRY_WAIT_SECS = 1` between attempts (`retry.dfy`).
- **Facade.** `create_service`, `destroy_service` and `update_ingress` run
  against an abstract control plane (`kubernetes.dfy`). The control plane
  answers the k-th call it receives with `reply(k)`: the call either returns with
  an HTTP status or raises an `ApiException`. The model keeps the log of calls,
  the live Deployments, Services and Ingresses by name, and the seconds spent
  waiting. Each operation is a function from the old cluster to the new cluster
  and the result. The methods of the class `KubernetesContainerManager` follow the
  source step by step and are proved equal to these functions.
- **Properties.** `kubernetes_properties.dfy` proves what the three operations
  promise, for every sequence of answers from the control plane. A call that
  raised is taken to have had no effect on the cluster (see "Left out").

`decimal.dfy` models Python's `str(n)`, which builds the volume names, together
with its inverse. The inverse proves that distinct volumes get distinct names.

Notes on the source's behaviour, which the model follows:

- `replicas` is copied as given. It is not checked to be at least 1.
- For GPUs, only `limits` is set, not `requests`.
- `args` is accepted but never reaches the container.
- The handle's info key is `gpu_nos`.
- A failure of the ingress listing call propagates as the client's own
  exception. Only a listing that returns with a status other than 200 raises
  `ServiceRequestError`.

## Model

| member | source | states |
|---|---|---|
| Decimal.NatToString | singa_auto/container/kubernetes_operation.py:195 | `str(n)` is a non-empty string of decimal digits without a leading zero |
| Decimal.StringToNatOfNatToString | singa_auto/container/kubernetes_operation.py:195 | reading the digits of `str(n)` back gives `n` |
| Decimal.NatToStringInjective | singa_auto/container/kubernetes_operation.py:195 | `str(m) == str(n)` exactly when `m == n` |
| Manifests.VolumeNameInjective | singa_auto/container/kubernetes_operation.py:195-199 | the generated names `'v' + str(i)` are distinct for distinct counters |
| Manifests.CreateDeploymentConfig | singa_auto/container/kubernetes_operation.py:166-216 | the mounts loop with its `mounts_count` builds exactly the Deployment that `DeploymentConfig` describes |
| Manifests.DeploymentIdentity | singa_auto/container/kubernetes_operation.py:178-189 | the Deployment and its one container are named after the service, and the replica count is copied. The selector picks exactly the pods labelled `name = service_name`, so the Deployment manages its own template's pods |
| Manifests.VolumeLayout | singa_auto/container/kubernetes_operation.py:190-208 | for N mounts there are N volumes and N mounts, both named `v0..v(N-1)`. Volume i uses the i-th host path and mount i uses the i-th container path. The volume names are pairwise distinct |
| Manifests.MountPairing | singa_auto/container/kubernetes_operation.py:190-208 | the Deployment mounts host path h at container path m if and only if (h, m) is an entry of `mounts` |
| Manifests.EnvRoundTrip | singa_auto/container/kubernetes_operation.py:209-210 | the container's env list, read back as pairs, is `environment_vars` in the same order |
| Manifests.GpuPolicy | singa_auto/container/kubernetes_operation.py:211-215 | `resources` is present if and only if `gpus > 0`. It then holds only `limits`, with the single key `nvidia.com/gpu`. The GPU limit is `gpus`, or 0 when none is set |
| Manifests.DeploymentIgnoresArgs | singa_auto/container/kubernetes_operation.py:166-216 | the Deployment does not depend on `args` |
| Manifests.ServicePortRule | singa_auto/container/kubernetes_operation.py:218-245 | the Service `ServiceConfig` builds (`_create_service_config`) is named after the service. With `publish_port = (p0, p1)`: type NodePort and the single rule `{port: p1, targetPort: p1, nodePort: p0}`. Without it: no type and no ports. Reading the ports back gives `publish_port` |
| Manifests.ServiceTargetsDeployment | singa_auto/container/kubernetes_operation.py:218-245 | the Service has the Deployment's name. Its selector is exactly `{name: service_name}`: it picks every pod with that label and no other, which are exactly the pods the Deployment selects, its template's pods included |
| Manifests.ServiceIgnoresWorkload | singa_auto/container/kubernetes_operation.py:218-245 | the Service depends only on the service name and the published port |
| IngressConfig.UpdateIngressPaths | singa_auto/container/kubernetes_operation.py:115-127 | the loop appending one path object per entry returns exactly `IngressPaths(body)` |
| IngressConfig.IngressPathsRoundTrip | singa_auto/container/kubernetes_operation.py:115-127 | translation fails exactly on a body without rules. Otherwise it keeps length and order, and each path object carries its entry's path, service name and service port. The Ingress that `IngressManifest` builds around them (lines 75-92) routes exactly those entries |
| IngressConfig.IngressPathsUseFirstRule | singa_auto/container/kubernetes_operation.py:117 | rules after the first are ignored |
| Retry.AttemptsFrom | singa_auto/container/kubernetes_operation.py:254-263 | the attempts made number at most `RETRY_TIMES + 1`. They stop at the first normal return or at the last allowed attempt, and every earlier attempt raised |
| Retry.AttemptsExactly | singa_auto/container/kubernetes_operation.py:254-263 | exactly m attempts are made if and only if attempts 1..m-1 raised and attempt m returned or was the last allowed |
| Retry.RetryReturnsFirstSuccess | singa_auto/container/kubernetes_operation.py:254-256 | the first normal return ends the retries and is what the caller gets |
| Retry.RetryGivesUp | singa_auto/container/kubernetes_operation.py:257-263 | the caller sees an exception if and only if all `RETRY_TIMES + 1` attempts raised. It is then the last attempt's exception |
| Retry.WaitedSecs | singa_auto/container/kubernetes_operation.py:265-266 | at most `RETRY_TIMES * RETRY_WAIT_SECS` seconds are spent waiting |
| Kubernetes.KubernetesContainerManager.Retry | singa_auto/container/kubernetes_operation.py:249-268 | the retry loop leaves the cluster, the log, the wait counter and the answer exactly as `RetrySpec` describes |
| Kubernetes.KubernetesContainerManager.CreateService | singa_auto/container/kubernetes_operation.py:133-164 | the method's effect and result are exactly those of `CreateServiceSpec` |
| Kubernetes.KubernetesContainerManager.DestroyService | singa_auto/container/kubernetes_operation.py:129-131 | the method's effect and result are exactly those of `DestroyServiceSpec` |
| Kubernetes.KubernetesContainerManager.UpdateIngress | singa_auto/container/kubernetes_operation.py:73-113 | the method's effect and result are exactly those of `UpdateIngressSpec` |
| ManagerProperties.RetryAttempts | singa_auto/container/kubernetes_operation.py:249-268 | a retried call is issued n times, 1 <= n <= 6, with n - 1 waits, which is the time `WaitedSecs` bounds. Only the last attempt can take effect. An exception propagates only after 6 raised attempts, and then nothing changes |
| ManagerProperties.CreateServiceCalls | singa_auto/container/kubernetes_operation.py:142-152 | the calls are k Service creations, then m Deployment creations, and nothing else. k > 0 exactly when a port is published, and k, m <= 6. No Deployment creation is issued exactly when a port is published and all 6 Service creations raised. The operation fails exactly when the last call it issued raised, and then with that call's exception |
| ManagerProperties.CreateServiceResult | singa_auto/container/kubernetes_operation.py:142-164 | on success the handle has id and hostname `service_name`, port `publish_port[0]` or none, and info `{node_id: 'default', gpu_nos, service_name, replicas}`. The Deployment, and the Service when published, are live under that name. The ingresses are untouched |
| ManagerProperties.HandleMatchesLiveService | singa_auto/container/kubernetes_operation.py:161-163 | the handle's port is the node port that the live Service opens |
| ManagerProperties.CreateServiceLeavesOrphan | singa_auto/container/kubernetes_operation.py:143-152 | when the Service was created and the Deployment then gave up, the Service stays live. There is no rollback |
| ManagerProperties.CreateServiceFailureLeavesNothing | singa_auto/container/kubernetes_operation.py:142-152 | when `create_service` fails without having created a Service (no port published, or all 6 Service creations raised), the live Deployments, Services and Ingresses are as before |
| ManagerProperties.DestroyServiceCalls | singa_auto/container/kubernetes_operation.py:129-131 | one Deployment deletion, then one Service deletion, the second only if the first returned. Neither is retried. On success neither object is live. When the Deployment deletion raised, nothing changes and its exception propagates. When only the Service deletion raised, the Deployment is gone, the Service stays live and the Service deletion's exception propagates |
| ManagerProperties.CreateThenDestroy | singa_auto/container/kubernetes_operation.py:129-164 | destroying the handle `create_service` returned leaves the live objects not named `service_name` as they were before the creation; a Service of that name is deleted even when none was published |
| ManagerProperties.UpdateIngressWithoutRule | singa_auto/container/kubernetes_operation.py:74 | a body without rules fails before any call is made |
| ManagerProperties.UpdateIngressListingFails | singa_auto/container/kubernetes_operation.py:94-98 | if the listing raises or its status is not 200, the update fails after the listing call alone. There is no create and no replace |
| ManagerProperties.UpdateIngressCreateOrReplace | singa_auto/container/kubernetes_operation.py:100-113 | after a listing with status 200 comes exactly one write. It is a replace if `ingress_name` is live and a create otherwise. On success the new manifest replaces the named Ingress as a whole, and nothing else changes |
| ManagerProperties.UpdateIngressIdempotent | singa_auto/container/kubernetes_operation.py:104-109 | a second successful update with the same body is a replace and leaves the live Ingresses unchanged |

## Left out

- `KubernetesContainerManager.__init__` is not modelled. It reads the service-account token file and the two environment variables and sets up SSL and the client configuration, which is I/O. The constructor instead takes the control plane's reply function and its initial state.
- The kubernetes client library is a foreign dependency. Its calls are modelled by the reply oracle, so any answer is possible for any call. A call that returns applies its effect; a call that raises is assumed to have applied none. The model therefore does not know that a real cluster rejects a duplicate creation. It also does not know that deleting a Service that was never created fails with NotFound. `destroy_service` always issues that deletion, even for a service without a published port.
- RetryAttempts: assumes a call that raised took no effect on the cluster, so "then nothing changes" does not cover a create that the server applied before the client raised (for example a client-side time-out). The retry would then meet a conflict, and the caller would see an exception while the object is live.
- CreateServiceLeavesOrphan: `no Deployment was added` rests on the same assumption that a raised Deployment creation took no effect.
- CreateServiceFailureLeavesNothing: `the live objects are as before` rests on the same assumption that a raised creation took no effect.
- DestroyServiceCalls: `nothing changes` after a raised Deployment deletion, and `the Service stays live` after a raised Service deletion, rest on the same assumption.
- UpdateIngressCreateOrReplace: `the Ingresses are unchanged` after a raised write rests on the same assumption.
- Response objects are not modelled: the created objects, the headers of the listing response, and the listed items beyond their names.
- Logging and `traceback.format_exc()` in `_retry` only produce log output.
- `time.sleep` is modelled as a counter of waited seconds, not as real time.
- `container_manager.py` (`ContainerManager`, `InvalidServiceRequestError`, `ContainerService`) is not part of this model. `ContainerService` is modelled by its four constructor arguments as used here.
- Python dicts are modelled as sequences of pairs in iteration order. The uniqueness of their keys is not enforced, and none of the proved properties needs it.
- Manifests are modelled as records, so the key order inside a generated dict is not modelled. `setdefault` on a fresh dict is a plain insertion.
- The source adds `env` and `resources` to the container dict after placing it in the pod template, and relies on aliasing for this. The model builds the final value directly.
- `int(...)` on the published ports is not modelled, because the ports are already integers in the model.
- An ingress body that lacks one of the keys `spec`, `rules`, `http`, `paths`, `path`, `backend`, `servicePort` or `serviceName` would raise `KeyError`. The typed input rules such bodies out. Only the empty rule list, which raises `IndexError`, is modelled.
- The ingress apiVersion and annotation strings are constants. They are only compared for equality.
- There is no concurrency and no rollback in the source, so none is modelled.
