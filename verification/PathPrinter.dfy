/** The documented path forms, printed from structured requests and resolved back. */
module PathPrinter {
  import opened Text
  import opened RequestInfo

  datatype Scoping = Unscoped | InNamespace(namespace: string) | InDevOps(project: string)

  /** A request in the documented form; `group` is present exactly when the prefix has groups, and `special` is
      a verb written into the path. */
  datatype ApiRequest = ApiRequest(
    prefix: string, cluster: Option<string>, group: Option<string>, version: string, special: Option<string>,
    workspace: Option<string>, scoping: Scoping, resource: string,
    name: Option<string>, subresource: Option<string>)

  function Opt(o: Option<string>): seq<string> {
    if o.Some? then [o.value] else []
  }

  function Pair(word: string, o: Option<string>): seq<string> {
    if o.Some? then [word, o.value] else []
  }

  function Value(o: Option<string>): string {
    if o.Some? then o.value else ""
  }

  function Tail(x: ApiRequest): seq<string> {
    [x.resource] + Opt(x.name) + Opt(x.subresource)
  }

  function ScopedTail(x: ApiRequest): seq<string> {
    (match x.scoping
     case Unscoped => []
     case InNamespace(n) => ["namespaces", n]
     case InDevOps(p) => ["devops", p]) + Tail(x)
  }

  function WorkspaceTail(x: ApiRequest): seq<string> {
    Pair("workspaces", x.workspace) + ScopedTail(x)
  }

  function VersionTail(x: ApiRequest): seq<string> {
    Opt(x.special) + WorkspaceTail(x)
  }

  function GroupTail(x: ApiRequest): seq<string> {
    Opt(x.group) + ([x.version] + VersionTail(x))
  }

  function Segments(x: ApiRequest): seq<string> {
    [x.prefix] + (Pair("clusters", x.cluster) + GroupTail(x))
  }

  /** `path` spells out the request, with any number of slashes before and after. */
  ghost predicate Prints(x: ApiRequest, path: string) {
    exists l, r :: Only(l, '/') && Only(r, '/') && path == l + Join(Segments(x), '/') + r
  }

  predicate IsSegment(s: string) {
    s != "" && Text.Free(s, '/')
  }

  predicate OptSegment(o: Option<string>) {
    o.Some? ==> IsSegment(o.value)
  }

  /** Every slot is filled with a proper segment, and no slot is filled whose predecessor is missing. */
  predicate Plain(f: Factory, x: ApiRequest) {
    && IsSegment(x.prefix) && OptSegment(x.cluster) && OptSegment(x.group) && IsSegment(x.version)
    && OptSegment(x.workspace) && IsSegment(x.resource) && OptSegment(x.name) && OptSegment(x.subresource)
    && (x.scoping.InNamespace? ==> IsSegment(x.scoping.namespace))
    && (x.scoping.InDevOps? ==> IsSegment(x.scoping.project))
    && (x.group.Some? <==> x.prefix !in f.groupless)
    && (x.subresource.Some? ==> x.name.Some?)
    && (x.special.Some? ==> x.special.value == "proxy" || x.special.value == "watch")
  }

  // ----- What resolving should report, written out from the request -----

  predicate Reads(verb: string) {
    verb == "GET" || verb == "HEAD"
  }

  /** A watch: the path says so, or it is a read without a name and the query says so. */
  predicate Watching(x: ApiRequest, verb: string, q: Query) {
    x.special == Some("watch") || (x.special.None? && x.name.None? && Reads(verb) && q.watch)
  }

  /** A verb in the path wins. Reading without a name is listing or watching, deleting without one deletes a collection. */
  function ExpectedVerb(x: ApiRequest, verb: string, q: Query): string {
    if x.special.Some? then x.special.value
    else if Reads(verb) then if x.name.Some? then "get" else if q.watch then "watch" else "list"
    else if verb == "POST" then "create"
    else if verb == "PUT" then "update"
    else if verb == "PATCH" then "patch"
    else if verb == "DELETE" then if x.name.Some? then "delete" else "deletecollection"
    else ""
  }

  /** A list or watch by field selector has the name it selects. */
  function ExpectedName(x: ApiRequest, verb: string, q: Query): string {
    if x.name.Some? then x.name.value
    else if x.special.None? && Reads(verb) then Value(q.exactName)
    else ""
  }

  /** A watch by workspace label is in that workspace, whatever the path says. */
  function ExpectedWorkspace(x: ApiRequest, verb: string, q: Query): string {
    if Watching(x, verb, q) && q.workspace.Some? then q.workspace.value else Value(x.workspace)
  }

  function ExpectedScope(f: Factory, x: ApiRequest, verb: string, q: Query): string {
    if Watching(x, verb, q) && q.workspace.Some? then "Workspace"
    else if GroupResource(Value(x.group), x.resource) in f.globalResources then "Global"
    else match x.scoping
      case InNamespace(_) => "Namespace"
      case InDevOps(_) => "DevOps"
      case Unscoped => if x.workspace.Some? then "Workspace" else "Cluster"
  }

  function NamespaceOf(x: ApiRequest): string {
    if x.scoping.InNamespace? then x.scoping.namespace else ""
  }

  function ProjectOf(x: ApiRequest): string {
    if x.scoping.InDevOps? then x.scoping.project else ""
  }

  /** The fields that come after the version. */
  function Described(f: Factory, info: Info, x: ApiRequest, verb: string, q: Query): Info {
    info.(
      verb := ExpectedVerb(x, verb, q), workspace := ExpectedWorkspace(x, verb, q),
      namespace := NamespaceOf(x), devops := ProjectOf(x),
      resource := x.resource, name := ExpectedName(x, verb, q),
      subresource := if x.special == Some("proxy") then "" else Value(x.subresource),
      parts := Tail(x), scope := ExpectedScope(f, x, verb, q))
  }

  function Base(x: ApiRequest, path: string, verb: string, kubernetes: bool): Info {
    Info(path, verb, true, kubernetes, x.prefix, Value(x.group), x.version, Value(x.cluster), "", "", "", "", "", "", [], "")
  }

  function Expected(f: Factory, x: ApiRequest, req: Request): Info {
    Described(f, Base(x, req.path, "", x.prefix == "api" || x.prefix == "apis"), x, req.verb, req.query)
  }

  // ----- Reserved words in ambiguous slots -----

  predicate ClusterUnambiguous(x: ApiRequest) {
    x.cluster.None? ==> (if x.group.Some? then x.group.value else x.version) != "clusters"
  }

  predicate VerbUnambiguous(x: ApiRequest) {
    x.special.None? && x.workspace.None? && x.scoping.Unscoped? ==> x.resource != "proxy" && x.resource != "watch"
  }

  /** A named resource called workspaces, namespaces or devops is taken for a scope, and so is a namespaced one called
      status or finalize for a subresource of its namespace. (A watch by workspace label on a workspace is read right,
      because the label overrides the workspace that was misread.) */
  predicate ScopeUnambiguous(x: ApiRequest, verb: string, q: Query) {
    && (x.workspace.None? && x.scoping.Unscoped? && x.name.Some? && x.resource == "workspaces" ==>
          Watching(x, verb, q) && q.workspace.Some? && x.subresource.None?)
    && (x.scoping.Unscoped? && x.name.Some? ==> x.resource != "namespaces" && x.resource != "devops")
    && (x.scoping.InNamespace? ==> x.resource != "status" && x.resource != "finalize")
  }

  // ----- Text level: printing and splitting are inverse -----

  lemma {:induction false} JoinBare(fields: seq<string>, sep: char)
    requires |fields| > 0 && forall f :: f in fields ==> f != "" && Text.Free(f, sep)
    ensures Join(fields, sep) != "" && Bare(Join(fields, sep), sep)
  {
    assert fields[0] in fields;
    if |fields| > 1 {
      assert forall f :: f in fields[1..] ==> f in fields;
      JoinBare(fields[1..], sep);
      var rest := Join(fields[1..], sep);
      var all := Join(fields, sep);
      assert all[|all| - 1] == rest[|rest| - 1];
    }
  }

  lemma SegmentsProper(f: Factory, x: ApiRequest)
    requires Plain(f, x)
    ensures forall s :: s in Segments(x) ==> IsSegment(s)
  {}

  lemma SplitPrinted(f: Factory, x: ApiRequest, path: string)
    requires Plain(f, x) && Prints(x, path)
    ensures SplitPath(path) == Segments(x)
  {
    SegmentsProper(f, x);
    var core := Join(Segments(x), '/');
    JoinBare(Segments(x), '/');
    var l, r :| Only(l, '/') && Only(r, '/') && path == l + core + r;
    TrimCore(l, core, r, '/');
    SplitJoin(Segments(x), '/');
  }

  // ----- Segment level -----

  lemma WorkspaceTaken(f: Factory, x: ApiRequest)
    requires Plain(f, x)
    ensures var (w, rest) := TakePair(WorkspaceTail(x), "workspaces");
      if x.workspace.None? && x.scoping.Unscoped? && x.resource == "workspaces" && x.name.Some?
      then w == x.name.value && rest == if x.subresource.Some? then [x.subresource.value] else ScopedTail(x)
      else w == Value(x.workspace) && rest == ScopedTail(x)
  {}

  lemma ScopeTaken(f: Factory, x: ApiRequest)
    requires Plain(f, x)
    ensures var (n, d, rest) := TakeScope(ScopedTail(x));
      if x.scoping.Unscoped? && x.name.Some? && x.resource == "namespaces" then n == x.name.value
      else if x.scoping.Unscoped? && x.name.Some? && x.resource == "devops" then d == x.name.value
      else if x.scoping.InNamespace? && (x.resource == "status" || x.resource == "finalize") then rest[0] == "namespaces"
      else n == NamespaceOf(x) && d == ProjectOf(x) && rest == Tail(x)
  {}

  /** The verb before the name is looked at. */
  function StartVerb(x: ApiRequest, verb: string): string {
    if x.special.Some? then x.special.value else VerbOf(verb)
  }

  /** What is known once the segments have been told apart. */
  function Told(f: Factory, info: Info, x: ApiRequest, w: string): Info {
    var i := WithParts(info.(workspace := w, namespace := NamespaceOf(x), devops := ProjectOf(x)), Tail(x));
    i.(scope := ScopeOf(f, i))
  }

  lemma ToldFields(f: Factory, info: Info, x: ApiRequest, w: string)
    requires Plain(f, x) && info.apiGroup == Value(x.group)
    ensures Told(f, info, x, w) == info.(
      workspace := w, namespace := NamespaceOf(x), devops := ProjectOf(x),
      resource := x.resource, name := Value(x.name),
      subresource := if info.verb == "proxy" then "" else Value(x.subresource),
      parts := Tail(x),
      scope := if GroupResource(Value(x.group), x.resource) in f.globalResources then "Global"
               else if x.scoping.InNamespace? then "Namespace"
               else if x.scoping.InDevOps? then "DevOps"
               else if w != "" then "Workspace" else "Cluster")
  {}

  lemma SettlesAsExpected(f: Factory, info: Info, x: ApiRequest, verb: string, q: Query, w: string)
    requires Plain(f, x) && info.apiGroup == Value(x.group) && info.verb == StartVerb(x, verb)
    requires w == Value(x.workspace) || (Watching(x, verb, q) && q.workspace.Some?)
    ensures Settle(Told(f, info, x, w), q) == Described(f, info, x, verb, q)
  {
    ToldFields(f, info, x, w);
    var i := Told(f, info, x, w);
    SettledFields(i, q);
    SettledVerb(f, i, x, verb, q);
    WatchingVerb(f, x, verb, q);
  }

  /** Settling touches verb and name, and on a watch by workspace label workspace and scope. */
  lemma SettledFields(info: Info, q: Query)
    ensures var i := Settle(info, q);
      var labelled := i.verb == "watch" && q.workspace.Some?;
      i == info.(verb := i.verb, name := i.name,
                 workspace := if labelled then q.workspace.value else info.workspace,
                 scope := if labelled then "Workspace" else info.scope)
  {}

  lemma SettledVerb(f: Factory, info: Info, x: ApiRequest, verb: string, q: Query)
    requires Plain(f, x) && info.verb == StartVerb(x, verb) && info.name == Value(x.name)
    ensures Settle(info, q).verb == ExpectedVerb(x, verb, q) && Settle(info, q).name == ExpectedName(x, verb, q)
  {}

  lemma ScopedForward(f: Factory, info: Info, x: ApiRequest, verb: string, q: Query)
    requires Plain(f, x) && info.apiGroup == Value(x.group) && info.verb == StartVerb(x, verb)
    requires ScopeUnambiguous(x, verb, q)
    ensures ResolveScoped(f, info, WorkspaceTail(x), q) == Ok(Described(f, info, x, verb, q))
  {
    WorkspaceTaken(f, x);
    ScopeTaken(f, x);
    var (w, rest) := TakePair(WorkspaceTail(x), "workspaces");
    SettlesAsExpected(f, info, x, verb, q, w);
  }

  lemma SettleFrame(info: Info, q: Query)
    ensures var i := Settle(info, q);
      && i.isKubernetes == info.isKubernetes && i.apiPrefix == info.apiPrefix
      && i.cluster == info.cluster && i.namespace == info.namespace && i.devops == info.devops
      && i.resource == info.resource
      && (i.workspace == info.workspace || (i.verb == "watch" && q.workspace.Some?))
      && (info.verb != "get" ==> i.name == info.name)
  {}

  /** What the stages after the prefix never change. */
  predicate SameOrigin(i: Info, info: Info) {
    i.isKubernetes == info.isKubernetes && i.apiPrefix == info.apiPrefix && i.cluster == info.cluster
  }

  /** What resolving reports about the scope, spelled out. */
  lemma ScopedFields(f: Factory, info: Info, parts: seq<string>, q: Query)
    requires parts != []
    ensures var (w, rest) := TakePair(parts, "workspaces");
      var (n, d, tail) := TakeScope(rest);
      var o := ResolveScoped(f, info, parts, q);
      && o.Ok? && SameOrigin(o.info, info) && o.info.namespace == n && o.info.devops == d
      && (o.info.workspace == w || (o.info.verb == "watch" && q.workspace.Some?))
      && (tail != [] ==> o.info.resource == tail[0])
      && (|tail| == 1 && info.verb != "get" ==> o.info.name == "")
  {
    var (w, rest) := TakePair(parts, "workspaces");
    var (n, d, tail) := TakeScope(rest);
    var i := WithParts(info.(workspace := w, namespace := n, devops := d), tail);
    SettleFrame(i.(scope := ScopeOf(f, i)), q);
  }

  lemma WatchingVerb(f: Factory, x: ApiRequest, verb: string, q: Query)
    requires Plain(f, x)
    ensures ExpectedVerb(x, verb, q) == "watch" <==> Watching(x, verb, q)
  {}

  lemma ScopedBackward(f: Factory, info: Info, x: ApiRequest, verb: string, q: Query)
    requires Plain(f, x) && info.verb == StartVerb(x, verb) && !ScopeUnambiguous(x, verb, q)
    ensures ResolveScoped(f, info, WorkspaceTail(x), q) != Ok(Described(f, info, x, verb, q))
  {
    WorkspaceTaken(f, x);
    ScopeTaken(f, x);
    WatchingVerb(f, x, verb, q);
    ScopedFields(f, info, WorkspaceTail(x), q);
  }

  /** The part after the version is read back exactly when no reserved word misleads it. */
  lemma VersionedRoundTrip(f: Factory, info: Info, x: ApiRequest, req: Request)
    requires Plain(f, x) && info.apiGroup == Value(x.group)
    ensures ResolveVersioned(f, info, VersionTail(x), req) == Ok(Described(f, info, x, req.verb, req.query))
       <==> ScopeUnambiguous(x, req.verb, req.query) && VerbUnambiguous(x)
  {
    var start := info.(verb := StartVerb(x, req.verb));
    FirstAfterVersion(x);
    if VerbUnambiguous(x) {
      assert ResolveVersioned(f, info, VersionTail(x), req) == ResolveScoped(f, start, WorkspaceTail(x), req.query);
      assert Described(f, start, x, req.verb, req.query) == Described(f, info, x, req.verb, req.query);
      if ScopeUnambiguous(x, req.verb, req.query) { ScopedForward(f, start, x, req.verb, req.query); }
      else { ScopedBackward(f, start, x, req.verb, req.query); }
    } else {
      var tail := VersionTail(x);
      SpecialVerbStays(f, info.(verb := tail[0]), tail[1..], req.query);
    }
  }

  lemma FirstAfterVersion(x: ApiRequest)
    ensures var tail := VersionTail(x);
      if x.special.Some? then tail[0] == x.special.value && tail[1..] == WorkspaceTail(x)
      else tail == WorkspaceTail(x) && (tail[0] in SPECIAL_VERBS <==> !VerbUnambiguous(x))
  {
    if x.workspace.None? && x.scoping.Unscoped? {
      assert WorkspaceTail(x) == Tail(x);
    }
  }

  lemma SpecialVerbStays(f: Factory, info: Info, parts: seq<string>, q: Query)
    requires info.verb in SPECIAL_VERBS
    ensures var o := ResolveScoped(f, info, parts, q); o.Ok? ==> o.info.verb == info.verb
  {}

  lemma VersionedKeepsOrigin(f: Factory, info: Info, rest: seq<string>, req: Request)
    ensures var o := ResolveVersioned(f, info, rest, req); !o.Panic? ==> SameOrigin(o.info, info)
  {
    if |rest| > 0 && rest[0] in SPECIAL_VERBS {
      if |rest| >= 2 { ScopedFields(f, info.(verb := rest[0]), rest[1..], req.query); }
    } else if |rest| > 0 {
      ScopedFields(f, info.(verb := VerbOf(req.verb)), rest, req.query);
    }
  }

  lemma GroupKeepsOrigin(f: Factory, info: Info, parts: seq<string>, req: Request)
    ensures var o := ResolveGroup(f, info, parts, req); !o.Panic? ==> SameOrigin(o.info, info)
  {
    if |parts| > 0 {
      VersionedKeepsOrigin(f, info.(isResource := true, apiVersion := parts[0]), parts[1..], req);
    }
    if |parts| >= 3 {
      var rest := parts[1..];
      VersionedKeepsOrigin(f, info.(apiGroup := parts[0], isResource := true, apiVersion := rest[0]), rest[1..], req);
    }
  }

  lemma ResolvedCluster(f: Factory, req: Request)
    requires var parts := SplitPath(req.path); |parts| >= 3 && parts[0] in f.apiPrefixes
    ensures var o := Resolve(f, req);
      !o.Panic? ==> o.info.cluster == TakePair(SplitPath(req.path)[1..], "clusters").0
  {
    var parts := SplitPath(req.path);
    var (cluster, rest) := TakePair(parts[1..], "clusters");
    GroupKeepsOrigin(f, Blank(req).(apiPrefix := parts[0], cluster := cluster), rest, req);
  }

  /** The resolver inverts the printer: for every HTTP method and query a printed request is read back to exactly its own
      fields if and only if its prefix is an API prefix and no reserved word stands in an ambiguous slot. */
  lemma RoundTrip(f: Factory, x: ApiRequest, req: Request)
    requires Plain(f, x) && Prints(x, req.path)
    ensures Resolve(f, req) == Ok(Expected(f, x, req)) <==>
      && x.prefix in f.apiPrefixes && ClusterUnambiguous(x) && VerbUnambiguous(x)
      && ScopeUnambiguous(x, req.verb, req.query)
  {
    SplitPrinted(f, x, req.path);
    assert |Segments(x)| >= 3;
    if x.prefix in f.apiPrefixes {
      ClusterTaken(x);
      if ClusterUnambiguous(x) {
        ResolvedPrinted(f, x, req);
      } else {
        MisreadCluster(f, x, req);
      }
    }
  }

  /** Without a cluster, the word clusters in the next slot is taken for one. */
  lemma MisreadCluster(f: Factory, x: ApiRequest, req: Request)
    requires Plain(f, x) && x.prefix in f.apiPrefixes && !ClusterUnambiguous(x)
    requires SplitPath(req.path) == Segments(x)
    ensures Resolve(f, req) != Ok(Expected(f, x, req))
  {
    ClusterTaken(x);
    SecondSlotFilled(f, x);
    ResolvedCluster(f, req);
    ExpectedCluster(f, x, req);
  }

  lemma SecondSlotFilled(f: Factory, x: ApiRequest)
    requires Plain(f, x)
    ensures |GroupTail(x)| >= 2 && GroupTail(x)[1] != "" && |Segments(x)| >= 3
  {
    SegmentsProper(f, x);
    var tail := GroupTail(x);
    assert |tail| >= 2;
    assert tail[1] in Segments(x);
  }

  lemma ExpectedCluster(f: Factory, x: ApiRequest, req: Request)
    ensures Expected(f, x, req).cluster == Value(x.cluster)
  {}

  lemma ResolvedPrinted(f: Factory, x: ApiRequest, req: Request)
    requires Plain(f, x) && x.prefix in f.apiPrefixes && ClusterUnambiguous(x)
    requires SplitPath(req.path) == Segments(x)
    ensures Resolve(f, req) == Ok(Expected(f, x, req)) <==> VerbUnambiguous(x) && ScopeUnambiguous(x, req.verb, req.query)
  {
    var i := Base(x, req.path, req.verb, false);
    var o := ReachesVersioned(f, x, req, i);
    VersionedRoundTrip(f, i, x, req);
    VersionedKeepsOrigin(f, i, VersionTail(x), req);
    FinishPrinted(f, x, i, req, o);
  }

  lemma ReachesVersioned(f: Factory, x: ApiRequest, req: Request, i: Info) returns (o: Outcome)
    requires Plain(f, x) && x.prefix in f.apiPrefixes && ClusterUnambiguous(x)
    requires SplitPath(req.path) == Segments(x)
    requires i == Base(x, req.path, req.verb, false)
    ensures o == ResolveVersioned(f, i, VersionTail(x), req)
    ensures Resolve(f, req) == Deferred(o, Segments(x))
  {
    o := ResolveVersioned(f, i, VersionTail(x), req);
    ClusterTaken(x);
    GroupTaken(f, Blank(req).(apiPrefix := x.prefix, cluster := Value(x.cluster)), x, req);
  }

  /** The deferred step only adds who handles the request. */
  lemma FinishPrinted(f: Factory, x: ApiRequest, i: Info, req: Request, o: Outcome)
    requires i == Base(x, req.path, req.verb, false) && x.prefix != ""
    requires !o.Panic? ==> SameOrigin(o.info, i)
    ensures Deferred(o, Segments(x)) == Ok(Expected(f, x, req)) <==> o == Ok(Described(f, i, x, req.verb, req.query))
  {}

  lemma ClusterTaken(x: ApiRequest)
    ensures var (c, rest) := TakePair(Segments(x)[1..], "clusters");
      if ClusterUnambiguous(x) then c == Value(x.cluster) && rest == GroupTail(x)
      else c == GroupTail(x)[1]
  {
    var tail := Pair("clusters", x.cluster) + GroupTail(x);
    assert Segments(x)[1..] == tail;
    if x.cluster.Some? {
      assert tail[2..] == GroupTail(x);
    } else {
      assert tail == GroupTail(x);
    }
  }

  lemma GroupTaken(f: Factory, info: Info, x: ApiRequest, req: Request)
    requires Plain(f, x) && info.apiPrefix == x.prefix && info.apiGroup == ""
    ensures ResolveGroup(f, info, GroupTail(x), req)
         == ResolveVersioned(f, info.(apiGroup := Value(x.group), isResource := true, apiVersion := x.version), VersionTail(x), req)
  {
    var tail := [x.version] + VersionTail(x);
    assert tail[1..] == VersionTail(x);
    if x.group.Some? {
      assert GroupTail(x)[1..] == tail;
    } else {
      assert GroupTail(x) == tail;
    }
  }
}
