/**
 * The routing rule `update_ingress` submits: the caller's ingress body is
 * translated path by path (`_update_ingress_paths`) into the client library's
 * path objects, which are wrapped in an Ingress named `ingress_name`.
 */
module IngressConfig {
  import opened Wrappers

  /** `path_info["backend"]` of the caller's body */
  datatype PathBackend = PathBackend(serviceName: string, servicePort: int)
  /** One entry of `ingress_body["spec"]["rules"][i]["http"]["paths"]` */
  datatype PathInfo = PathInfo(path: string, backend: PathBackend)
  /** `ingress_body["spec"]["rules"][i]["http"]` */
  datatype RuleBody = RuleBody(paths: seq<PathInfo>)
  /** `ingress_body["spec"]["rules"]` */
  datatype IngressBody = IngressBody(rules: seq<RuleBody>)

  /** The client library's backend and path objects */
  datatype IngressBackend = IngressBackend(serviceName: string, servicePort: int)
  datatype HttpIngressPath = HttpIngressPath(path: string, backend: IngressBackend)

  datatype IngressMeta = IngressMeta(name: string, annotations: map<string, string>)
  /** One rule of the Ingress spec with its HTTP paths */
  datatype IngressRule = IngressRule(paths: seq<HttpIngressPath>)
  datatype Ingress = Ingress(apiVersion: string, kind: string, metadata: IngressMeta, rules: seq<IngressRule>)

  const INGRESS_API_VERSION: string := "networking.k8s.io/v1beta1"
  const REWRITE_TARGET: string := "nginx.ingress.kubernetes.io/rewrite-target"

  /** The path object built for one path entry */
  function ToIngressPath(p: PathInfo): HttpIngressPath {
    HttpIngressPath(p.path, IngressBackend(p.backend.serviceName, p.backend.servicePort))
  }

  /** Reading a path object back as a path entry: the inverse of ToIngressPath */
  function ToPathInfo(p: HttpIngressPath): PathInfo {
    PathInfo(p.path, PathBackend(p.backend.serviceName, p.backend.servicePort))
  }

  /** What `_update_ingress_paths` returns: the translated paths of the FIRST rule;
      `None` where indexing `rules[0]` raises because the body has no rule */
  function IngressPaths(body: IngressBody): Option<seq<HttpIngressPath>> {
    if body.rules == [] then None
    else
      var infos := body.rules[0].paths;
      Some(seq(|infos|, i requires 0 <= i < |infos| => ToIngressPath(infos[i])))
  }

  /** `_update_ingress_paths`, with its loop appending one path object per entry */
  method UpdateIngressPaths(body: IngressBody) returns (r: Option<seq<HttpIngressPath>>)
    ensures r == IngressPaths(body)
  {
    if body.rules == [] {
      return None;
    }
    var infos := body.rules[0].paths;
    var paths: seq<HttpIngressPath> := [];
    for i := 0 to |infos|
      invariant |paths| == i
      invariant forall k :: 0 <= k < i ==> paths[k] == ToIngressPath(infos[k])
    {
      var pathObj := HttpIngressPath(infos[i].path,
        IngressBackend(infos[i].backend.serviceName, infos[i].backend.servicePort));
      paths := paths + [pathObj];
    }
    assert paths == IngressPaths(body).value;
    r := Some(paths);
  }

  /** The Ingress `update_ingress` submits for `paths` */
  function IngressManifest(ingressName: string, paths: seq<HttpIngressPath>): Ingress {
    Ingress(INGRESS_API_VERSION, "Ingress",
      IngressMeta(ingressName, map[REWRITE_TARGET := "/"]),
      [IngressRule(paths)])
  }

  /** The path entries an Ingress routes, read back from its first rule */
  function RoutedPaths(ing: Ingress): seq<PathInfo> {
    if ing.rules == [] then []
    else seq(|ing.rules[0].paths|, i requires 0 <= i < |ing.rules[0].paths| => ToPathInfo(ing.rules[0].paths[i]))
  }

  /** Translation fails exactly on a body without rules; otherwise it keeps length and order,
      and each path object carries its entry's path, service name and service port, so the
      submitted Ingress routes exactly the first rule's entries. */
  lemma IngressPathsRoundTrip(body: IngressBody, name: string)
    ensures IngressPaths(body).None? <==> body.rules == []
    ensures body.rules != [] ==>
      var paths := IngressPaths(body).value;
      && |paths| == |body.rules[0].paths|
      && (forall i :: 0 <= i < |paths| ==> ToPathInfo(paths[i]) == body.rules[0].paths[i])
      && RoutedPaths(IngressManifest(name, paths)) == body.rules[0].paths
  {
    if body.rules != [] {
      var paths := IngressPaths(body).value;
      var routed := RoutedPaths(IngressManifest(name, paths));
      assert forall i :: 0 <= i < |routed| ==> routed[i] == body.rules[0].paths[i];
    }
  }

  /** Rules after the first one are ignored */
  lemma IngressPathsUseFirstRule(rule: RuleBody, rest: seq<RuleBody>)
    ensures IngressPaths(IngressBody([rule] + rest)) == IngressPaths(IngressBody([rule]))
  {
  }
}
