/** Resolving an API path into a request description. */
module RequestInfo {
  import opened Text

  datatype GroupResource = GroupResource(group: string, resource: string)

  datatype Factory = Factory(apiPrefixes: set<string>, groupless: set<string>, globalResources: seq<GroupResource>)

  /** What the list-options codec and the label selector contribute: whether a watch is asked for, the name
      an exact metadata.name field selector fixes, and the workspace of a workspace label selector. */
  datatype Query = Query(watch: bool, exactName: Option<string>, workspace: Option<string>)

  datatype Request = Request(path: string, verb: string, query: Query)

  datatype Info = Info(
    path: string, verb: string, isResource: bool, isKubernetes: bool,
    apiPrefix: string, apiGroup: string, apiVersion: string,
    cluster: string, workspace: string, namespace: string, devops: string,
    resource: string, name: string, subresource: string, parts: seq<string>, scope: string)

  /** Panic: an index out of range. Bad: an error is returned along with what is known so far. */
  datatype Outcome = Panic | Bad(info: Info) | Ok(info: Info)

  const SPECIAL_VERBS := {"proxy", "watch"}
  const NAMESPACE_SUBRESOURCES := {"status", "finalize"}
  const KUBERNETES_PREFIXES := {"api", "apis"}

  function SplitPath(path: string): seq<string> {
    var p := Trim(path, '/');
    if p == "" then [] else Split(p, '/')
  }

  // ----- Stages -----

  function Blank(req: Request): Info {
    Info(req.path, req.verb, false, false, "", "", "", "", "", "", "", "", "", "", [], "")
  }

  /** The deferred step: the prefix decides who handles the request, also for short discovery paths. */
  function Finish(info: Info, all: seq<string>): Info {
    var prefix := if info.apiPrefix == "" && 0 < |all| < 3 then all[0] else info.apiPrefix;
    info.(isKubernetes := prefix in KUBERNETES_PREFIXES)
  }

  /** Takes `word/{value}/` off the front if there is something behind it; the value is reported in any case. */
  function TakePair(parts: seq<string>, word: string): (string, seq<string>) {
    if |parts| > 0 && parts[0] == word then
      (if |parts| > 1 then parts[1] else "", if |parts| > 2 then parts[2..] else parts)
    else ("", parts)
  }

  function VerbOf(verb: string): string {
    if verb == "POST" then "create"
    else if verb == "GET" || verb == "HEAD" then "get"
    else if verb == "PUT" then "update"
    else if verb == "PATCH" then "patch"
    else if verb == "DELETE" then "delete"
    else ""
  }

  /** Namespace, DevOps project, and the parts relative to the resource. */
  function TakeScope(parts: seq<string>): (string, string, seq<string>) {
    if |parts| > 1 && parts[0] == "namespaces" then
      (parts[1], "", if |parts| > 2 && parts[2] !in NAMESPACE_SUBRESOURCES then parts[2..] else parts)
    else if |parts| > 1 && parts[0] == "devops" then
      ("", parts[1], if |parts| > 2 then parts[2..] else parts)
    else ("", "", parts)
  }

  predicate IsGlobal(f: Factory, group: string, resource: string) {
    GroupResource(group, resource) in f.globalResources
  }

  function ScopeOf(f: Factory, info: Info): string {
    if IsGlobal(f, info.apiGroup, info.resource) then "Global"
    else if info.namespace != "" then "Namespace"
    else if info.devops != "" then "DevOps"
    else if info.workspace != "" then "Workspace"
    else "Cluster"
  }

  function WithParts(info: Info, parts: seq<string>): Info {
    info.(parts := parts,
          resource := if |parts| >= 1 then parts[0] else "",
          name := if |parts| >= 2 then parts[1] else "",
          subresource := if |parts| >= 3 && info.verb != "proxy" then parts[2] else "")
  }

  /** The verb once the name is known. */
  function Settle(info: Info, q: Query): Info {
    var listed :=
      if info.name == "" && info.verb == "get" then
        info.(verb := if q.watch then "watch" else "list", name := if q.exactName.Some? then q.exactName.value else "")
      else info;
    var watched :=
      if listed.verb == "watch" && q.workspace.Some? then listed.(workspace := q.workspace.value, scope := "Workspace")
      else listed;
    if watched.name == "" && watched.verb == "delete" then watched.(verb := "deletecollection") else watched
  }

  /** From the segment after the version (and special verb) on. */
  function ResolveScoped(f: Factory, info: Info, parts: seq<string>, q: Query): Outcome {
    if parts == [] then Panic
    else
      var (workspace, inWorkspace) := TakePair(parts, "workspaces");
      var (namespace, devops, rest) := TakeScope(inWorkspace);
      var i := WithParts(info.(workspace := workspace, namespace := namespace, devops := devops), rest);
      Ok(Settle(i.(scope := ScopeOf(f, i)), q))
  }

  /** From the segment after the version on. */
  function ResolveVersioned(f: Factory, info: Info, parts: seq<string>, req: Request): Outcome {
    if |parts| > 0 && parts[0] in SPECIAL_VERBS then
      if |parts| < 2 then Bad(info)
      else ResolveScoped(f, info.(verb := parts[0]), parts[1..], req.query)
    else ResolveScoped(f, info.(verb := VerbOf(req.verb)), parts, req.query)
  }

  /** From the version on. */
  function ResolveVersion(f: Factory, info: Info, parts: seq<string>, req: Request): Outcome {
    if parts == [] then Panic
    else ResolveVersioned(f, info.(isResource := true, apiVersion := parts[0]), parts[1..], req)
  }

  /** From the group (or, for a groupless prefix, the version) on. */
  function ResolveGroup(f: Factory, info: Info, parts: seq<string>, req: Request): Outcome {
    if info.apiPrefix in f.groupless then ResolveVersion(f, info, parts, req)
    else if |parts| < 3 then Ok(info)
    else ResolveVersion(f, info.(apiGroup := parts[0]), parts[1..], req)
  }

  function ResolveParts(f: Factory, req: Request, parts: seq<string>): Outcome {
    if |parts| < 3 || parts[0] !in f.apiPrefixes then Ok(Blank(req))
    else
      var (cluster, rest) := TakePair(parts[1..], "clusters");
      ResolveGroup(f, Blank(req).(apiPrefix := parts[0], cluster := cluster), rest, req)
  }

  function Deferred(o: Outcome, parts: seq<string>): Outcome {
    match o
    case Panic => Panic
    case Bad(i) => Bad(Finish(i, parts))
    case Ok(i) => Ok(Finish(i, parts))
  }

  function Resolve(f: Factory, req: Request): Outcome {
    var parts := SplitPath(req.path);
    Deferred(ResolveParts(f, req, parts), parts)
  }

  // ----- Index safety -----

  /** Resolving runs out of segments exactly on a groupless prefix followed by clusters/{cluster}/{version} and nothing more. */
  lemma PanicsExactly(f: Factory, req: Request)
    ensures var parts := SplitPath(req.path);
      Resolve(f, req).Panic? <==>
        |parts| == 4 && parts[0] in f.apiPrefixes && parts[0] in f.groupless && parts[1] == "clusters"
  {
    var parts := SplitPath(req.path);
    if |parts| >= 3 && parts[0] in f.apiPrefixes {
      var (cluster, rest) := TakePair(parts[1..], "clusters");
      assert |rest| == if parts[1] == "clusters" && |parts| > 3 then |parts| - 3 else |parts| - 1;
    }
  }

  // ----- Requests that are not for a resource -----

  /** A description with nothing in it but who handles the request, its API prefix and its cluster. */
  function NonResource(req: Request, kubernetes: bool, prefix: string, cluster: string): Info {
    Info(req.path, req.verb, false, kubernetes, prefix, "", "", cluster, "", "", "", "", "", "", [], "")
  }

  predicate KubernetesPrefix(s: string) {
    s == "api" || s == "apis"
  }

  /** Short paths and paths without an API prefix: only discovery paths of Kubernetes go to Kubernetes. */
  lemma ShortOrForeignPath(f: Factory, req: Request)
    requires var parts := SplitPath(req.path); |parts| < 3 || parts[0] !in f.apiPrefixes
    ensures var parts := SplitPath(req.path);
      Resolve(f, req) == Ok(NonResource(req, 0 < |parts| < 3 && KubernetesPrefix(parts[0]), "", ""))
  {}

  /** An API path with groups that has no room for group, version and resource, with or without a cluster. */
  lemma IncompletePath(f: Factory, req: Request)
    requires var parts := SplitPath(req.path);
      && |parts| >= 3 && parts[0] in f.apiPrefixes && parts[0] !in f.groupless && parts[0] != ""
      && |parts| <= (if parts[1] == "clusters" then 5 else 3)
    ensures var parts := SplitPath(req.path);
      Resolve(f, req) == Ok(NonResource(req, KubernetesPrefix(parts[0]), parts[0], if parts[1] == "clusters" then parts[2] else ""))
  {}

  /** Position of the version in a resource path. */
  function VersionAt(f: Factory, parts: seq<string>): nat
    requires |parts| >= 3
  {
    1 + (if parts[1] == "clusters" && |parts| > 3 then 2 else 0) + (if parts[0] in f.groupless then 0 else 1)
  }

  /** The resolver returns an error exactly when a verb in the path is followed by nothing. */
  lemma BadExactly(f: Factory, req: Request)
    ensures var parts := SplitPath(req.path);
      Resolve(f, req).Bad? <==>
        && |parts| >= 3 && parts[0] in f.apiPrefixes && |parts| == VersionAt(f, parts) + 2
        && (parts[|parts| - 1] == "proxy" || parts[|parts| - 1] == "watch")
  {
    var parts := SplitPath(req.path);
    if |parts| >= 3 && parts[0] in f.apiPrefixes {
      var (cluster, rest) := TakePair(parts[1..], "clusters");
      assert rest == if parts[1] == "clusters" && |parts| > 3 then parts[3..] else parts[1..];
    }
  }

  // ----- The code -----

  method IsGlobalScopeResource(f: Factory, group: string, resource: string) returns (r: bool)
    ensures r <==> IsGlobal(f, group, resource)
  {
    for i := 0 to |f.globalResources|
      invariant GroupResource(group, resource) !in f.globalResources[..i]
    {
      if f.globalResources[i].group == group && f.globalResources[i].resource == resource {
        return true;
      }
    }
    return false;
  }

  method ResolveResourceScope(f: Factory, info: Info) returns (scope: string)
    ensures scope == ScopeOf(f, info)
  {
    var global := IsGlobalScopeResource(f, info.apiGroup, info.resource);
    if global {
      return "Global";
    }
    if info.namespace != "" {
      return "Namespace";
    }
    if info.devops != "" {
      return "DevOps";
    }
    if info.workspace != "" {
      return "Workspace";
    }
    return "Cluster";
  }

  /** NewRequestInfo up to its deferred step. */
  method ParseParts(f: Factory, req: Request, all: seq<string>) returns (o: Outcome)
    ensures o == ResolveParts(f, req, all)
  {
    var info := Blank(req);
    var parts := all;
    if |parts| < 3 {
      return Ok(info);
    }
    if parts[0] !in f.apiPrefixes {
      return Ok(info);
    }
    info := info.(apiPrefix := parts[0]);
    parts := parts[1..];

    if parts[0] == "clusters" {
      if |parts| > 1 {
        info := info.(cluster := parts[1]);
      }
      if |parts| > 2 {
        parts := parts[2..];
      }
    }
    if info.apiPrefix !in f.groupless {
      if |parts| < 3 {
        return Ok(info);
      }
      info := info.(apiGroup := parts[0]);
      parts := parts[1..];
    }
    info := info.(isResource := true, apiVersion := parts[0]);
    parts := parts[1..];

    if |parts| > 0 && parts[0] in SPECIAL_VERBS {
      if |parts| < 2 {
        return Bad(info);
      }
      info := info.(verb := parts[0]);
      parts := parts[1..];
    } else {
      info := info.(verb := VerbOf(req.verb));
    }
    o := ParseScoped(f, info, parts, req.query);
  }

  method ParseWorkspace(from: seq<string>) returns (workspace: string, parts: seq<string>)
    requires from != []
    ensures (workspace, parts) == TakePair(from, "workspaces") && parts != []
  {
    workspace, parts := "", from;
    if parts[0] == "workspaces" {
      if |parts| > 1 {
        workspace := parts[1];
      }
      if |parts| > 2 {
        parts := parts[2..];
      }
    }
  }

  method ParseScope(from: seq<string>) returns (namespace: string, devops: string, parts: seq<string>)
    requires from != []
    ensures (namespace, devops, parts) == TakeScope(from)
  {
    namespace, devops, parts := "", "", from;
    if parts[0] == "namespaces" {
      if |parts| > 1 {
        namespace := parts[1];
        if |parts| > 2 && parts[2] !in NAMESPACE_SUBRESOURCES {
          parts := parts[2..];
        }
      }
    } else if parts[0] == "devops" {
      if |parts| > 1 {
        devops := parts[1];
        if |parts| > 2 {
          parts := parts[2..];
        }
      }
    }
  }

  method ParseScoped(f: Factory, start: Info, from: seq<string>, q: Query) returns (o: Outcome)
    requires start.resource == start.name == start.subresource == ""
    ensures o == ResolveScoped(f, start, from, q)
  {
    if |from| == 0 {
      return Panic;
    }
    var workspace, inWorkspace := ParseWorkspace(from);
    var namespace, devops, parts := ParseScope(inWorkspace);
    var info := start.(workspace := workspace, namespace := namespace, devops := devops);
    info := FillParts(info, parts);
    var scope := ResolveResourceScope(f, info);
    info := SettleVerb(info.(scope := scope), q);
    return Ok(info);
  }

  method FillParts(start: Info, parts: seq<string>) returns (info: Info)
    requires start.resource == start.name == start.subresource == ""
    ensures info == WithParts(start, parts)
  {
    info := start.(parts := parts);
    if |parts| >= 3 && info.verb != "proxy" {
      info := info.(subresource := parts[2]);
    }
    if |parts| >= 2 {
      info := info.(name := parts[1]);
    }
    if |parts| >= 1 {
      info := info.(resource := parts[0]);
    }
  }

  method SettleVerb(start: Info, q: Query) returns (info: Info)
    ensures info == Settle(start, q)
  {
    info := start;
    if info.name == "" && info.verb == "get" {
      info := info.(verb := if q.watch then "watch" else "list");
      if q.exactName.Some? {
        info := info.(name := q.exactName.value);
      }
    }
    if info.verb == "watch" && q.workspace.Some? {
      info := info.(workspace := q.workspace.value, scope := "Workspace");
    }
    if info.name == "" && info.verb == "delete" {
      info := info.(verb := "deletecollection");
    }
  }

  method NewRequestInfo(f: Factory, req: Request) returns (o: Outcome)
    ensures o == Resolve(f, req)
  {
    var parts := SplitPath(req.path);
    o := ParseParts(f, req, parts);
    if !o.Panic? {
      var prefix := o.info.apiPrefix;
      if prefix == "" && 0 < |parts| < 3 {
        prefix := parts[0];
      }
      var info := o.info.(isKubernetes := prefix in KUBERNETES_PREFIXES);
      o := if o.Bad? then Bad(info) else Ok(info);
    }
  }
}
