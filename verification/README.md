# KubeSphere controllers and request path, modelled in Dafny

A verification project for the parts of KubeSphere whose correctness is easiest to get wrong: the alert-rule
controllers, the request resolver with multicluster dispatch, the audit pipeline, the unjoin sequence, the
application status controller, and pagination. `dafny verify dfyconfig.toml` checks everything.

Loops, in-place updates and calls that change cluster state are methods and classes; each is proved against a
specification function or relation, and the promises are proved about that specification. The audit pipeline is a
step relation. Arbitrary API failures are nondeterministic choices inside the modelled API server, and a call that
reports a failure may still have taken effect.

## What is proved

**Alert rules** (`RuleOrder`, `RuleSpecs`, `Rendering`, `ObjectNames`, `ApiServer`, `BulkUpdate`, `RuleIds`,
`Reconciler`, `Isolation`). The greedy splitter loses and reorders nothing, is the only list of specs with its
characterising properties, is optimal among order-preserving splits, and uses at most 2m - 1 specs where any packing
at all needs m; distinctly named groups attain that bound for exactly the m up to the budget in bytes. The desired
objects do not depend on listing or map order. Which rules are rendered, and to what, is determined field by field, and
a settled level is described by its sources and objects alone. A bulk update leaves every object as it was or as desired, and over any
number of interrupted retries the writes that take effect are exactly the differences closed. Two reconciles settle a
level if and only if no foreign object has a name that is called for, and then a third changes nothing; such an object
survives every sequence of the level's runs and keeps it unsettled throughout. Names are injective and selectors
disjoint, so failing runs of different levels never touch the same object, successful runs commute, and after any
failed runs of any levels two reliable reconciles settle a level.

**Requests** (`RequestInfo`, `PathPrinter`, `ClusterPath`, `Dispatch`). The resolver runs out of segments on exactly
one family of paths. For every method and query it inverts a printer of the documented path forms if and only if no
reserved word stands in an ambiguous slot. Cutting `/clusters/{cluster}` out of a path as text is the same as cutting it out of the parse, so
the member cluster resolves the request as the host did. Through a kube-apiserver that drops Authorization and the
query of upgrade requests, path and headers always survive, and the raw query survives under an exact condition on
the client's request.

**Audit pipeline** (`AuditQueue`, `AuditSenders`). Over all runs, handed batches, the open batch and the queue
concatenate to the accepted events; stop discards only what was not handed over. Sender tokens are accounted for in
a run if and only if every send in it decides before its own outer timeout, which the configured timeouts ensure for
decisions less than two seconds late. In every run, timely or not, tokens and debts balance the calls that acquired and
have not returned, so a call that takes a token it never put in and then gives up leaves some call unreturned for good.

**Unjoin** (`Unjoin`). Which deletions a run calls, in which order, and when it fails, in every mode and under arbitrary
failures. An unforced run calls for the deletion of the KubeFedCluster record only after everything it depends on is
gone; a forced run tries everything it can find; a dry run deletes nothing. The deletions cover what joining creates.

**Application status** (`Conditions`, `AppStatus`). What each timestamp of a condition means over a whole history of
calls, and that any number of reconciles of an unchanged application write its status at most once.

**Pagination** (`Pagination`). Pages partition the results; the indices are valid exactly when one addition does not
overflow, and overflow is reachable from request parameters.

## Model

| member | source | states |
|---|---|---|
| RuleOrder.Swap | pkg/controller/alerting/util.go:311-313 | two elements exchanged, the rest and the multiset kept |
| RuleOrder.SortByName | pkg/controller/alerting/util.go:320-325 | the array ends up sorted by name and a permutation of what it was |
| RuleOrder.SortUnique | pkg/controller/alerting/util.go:320-325 | for distinct names every sorted permutation is the same list, so the unstable sort is deterministic |
| RuleOrder.SortIgnoresListingOrder | pkg/controller/alerting/util.go:319-325 | two listings of the same groups sort to the same list |
| RuleSpecs.MakePrometheusRuleSpecs | pkg/controller/alerting/util.go:319-356 | sorts in place and returns the greedy split of the sorted groups; fails exactly when some group cannot be marshalled |
| RuleSpecs.SplitSorted | pkg/controller/alerting/util.go:327-355 | the loop computes the greedy split, or fails exactly when some group cannot be marshalled |
| RuleSpecs.SplitIsGreedy | pkg/controller/alerting/util.go:333-353 | groups are conserved in order, specs of several groups fit the budget, an empty spec appears only first and exactly when the first group alone is over budget, and a spec is closed only when the next group does not fit |
| RuleSpecs.GreedyExactly | pkg/controller/alerting/util.go:333-353 | those properties hold of one list of specs only, the one computed |
| RuleSpecs.SplitNearOptimal | pkg/controller/alerting/util.go:319-356 | at most 2m - 1 specs, m the bins of any packing of the groups within budget, contiguous or not |
| RuleSpecs.BoundAttainedExactly | pkg/controller/alerting/util.go:319-356 | some distinctly named groups that pack into m bins are, once sorted, split into 2m - 1 specs, if and only if m is between 1 and the budget in bytes |
| RuleSpecs.SplitOptimalInOrder | pkg/controller/alerting/util.go:333-353 | no split of the same list into consecutive specs within budget has fewer specs |
| Rendering.OverwriteLabels | pkg/controller/alerting/util.go:121-129 | for every iteration order of the label map the enforced labels win and the others stay |
| Rendering.ApplyEnforceFuncs | pkg/controller/alerting/util.go:105-132 | expression and labels enforced, or the enforcer's failure |
| Rendering.ConvertRule | pkg/controller/alerting/util.go:138-183 | the conversion that ConvertsExactly describes: disabled, failed or converted |
| Rendering.MakePrometheusRuleGroups | pkg/controller/alerting/util.go:185-258 | the rendering that RenderExactly describes, in listing order |
| Rendering.LabelsEnforced | pkg/controller/alerting/util.go:149-171 | label by label: group, alert type, level and a namespace rule's namespace are enforced, a severity is the rule's own, every other label is the author's or absent |
| Rendering.ExpressionEnforced | pkg/controller/alerting/util.go:105-118 | a rule is converted exactly when it is not disabled and the enforcer answers the matchers of its level, or there are none; the expression is that answer |
| Rendering.ConvertsExactly | pkg/controller/alerting/util.go:138-183 | those expectations of labels, expression and other fields hold of one rule only, the conversion |
| Rendering.RenderGroupExactly | pkg/controller/alerting/util.go:187-211 | a group is rendered to the conversions of its convertible rules in order, under its own name, interval and strategy, and left out exactly when none is convertible; this determines the rendering |
| Rendering.RenderExactly | pkg/controller/alerting/util.go:185-258 | the rendering of a listing holds exactly what its groups render to |
| Rendering.RenderIgnoresListingOrder | pkg/controller/alerting/util.go:134-260 | the sorted rendering is the same for every order in which groups are listed |
| ObjectNames.NamesInjective | pkg/controller/alerting/rulegroup_controller.go:143 | equal names imply equal level, namespace and index, whatever hyphens and digits the namespace holds |
| ApiServer.Server.Fault | pkg/controller/alerting/util.go:381-384 | a reliable server does not fail spuriously; otherwise a conflict or other error may come up |
| ApiServer.Server.ListRules | pkg/controller/alerting/rulegroup_controller.go:149-157 | the objects matching the selector, in any order |
| ApiServer.Server.UpdateRule | pkg/controller/alerting/util.go:381-384 | replaces an existing object or changes nothing; an error may hide a write that took effect |
| ApiServer.Server.CreateRule | pkg/controller/alerting/util.go:387-390 | adds an absent object or changes nothing; AlreadyExists otherwise |
| ApiServer.Server.DeleteRule | pkg/controller/alerting/util.go:396-402 | removes an object or changes nothing; NotFound only if absent |
| ApiServer.Server.DeleteAllRules | pkg/controller/alerting/rulegroup_controller.go:116-121 | removes all matching objects, or on failure some of them |
| ApiServer.Server.ListSources | pkg/controller/alerting/rulegroup_controller.go:58-67 | the enabled groups of the level, each once, in any order |
| ApiServer.Server.UpdateSource | pkg/controller/alerting/rulegroup_controller.go:79-82 | stores the group under its key, or changes nothing |
| ApiServer.Server.GetNamespace | pkg/controller/alerting/rulegroup_controller.go:125-129 | the namespace object, or NotFound when there is none |
| RuleIds.AddIdsToGroup | pkg/controller/alerting/rulegroup_controller.go:72-85 | a prefix of the rules gets missing ids and is stored; without error all rules |
| RuleIds.AddRuleIds | pkg/controller/alerting/rulegroup_controller.go:69-89 | without error every rule of every enabled group of the level has an id and nothing else changed; reports an update exactly when an id was missing |
| RuleIds.NothingToAdd | pkg/controller/alerting/rulegroup_controller.go:77-84 | where no id is missing the pass changes nothing |
| BulkUpdate.Index | pkg/controller/alerting/util.go:365-372 | the map the listed items amount to |
| BulkUpdate.UpsertOne | pkg/controller/alerting/util.go:376-391 | at most one write, only where something is off and nothing foreign sits; a foreign object means AlreadyExists |
| BulkUpdate.UpsertNext | pkg/controller/alerting/util.go:375-391 | one more desired object in place or an error; a write that takes effect closes one difference |
| BulkUpdate.Upsert | pkg/controller/alerting/util.go:374-392 | the desired objects are in place up to where it stopped; each write closes one difference |
| BulkUpdate.Prune | pkg/controller/alerting/util.go:393-404 | listed undesired objects are gone up to where it stopped; each write closes one difference |
| BulkUpdate.BulkUpdatePrometheusRules | pkg/controller/alerting/util.go:358-407 | under any failures and orders each object is as before or as desired and nobody else's is touched; differences left plus writes made is constant; without error exactly the selected objects are replaced; a reliable server gives no error if and only if no foreign object sits under a desired name |
| BulkUpdate.OneFewer | pkg/controller/alerting/util.go:374-404 | a write that puts one key right reduces the number of differences by exactly one |
| BulkUpdate.DiffEmpty | pkg/controller/alerting/util.go:374-404 | no difference is left exactly when the selected objects are the desired ones |
| BulkUpdate.Attempt | pkg/controller/alerting/rulegroup_controller.go:149-164 | list and update once: each write that takes effect closes one difference; done means the selected objects are the desired ones |
| BulkUpdate.Retry | pkg/controller/alerting/rulegroup_controller.go:149-164 | over any number of attempts cut short anywhere, writes plus remaining differences are the differences at the start, and foreign objects stay; success means exactly that many writes were made and nothing foreign was in the way; one reliable attempt suffices when nothing is |
| Reconciler.NameSpecs | pkg/controller/alerting/util.go:286-297 | the i-th spec under the i-th name of the level, with the level's labels and owners |
| Reconciler.MakePrometheusRuleResources | pkg/controller/alerting/util.go:279-300 | the named split of the sorted groups; fails exactly when some group cannot be marshalled |
| Reconciler.ResourcesAt | pkg/controller/alerting/util.go:286-297 | under the i-th name of the level, and no other, there is an object with the groups of the i-th spec, the level's labels and the owners |
| Reconciler.DesiredIgnoresListingOrder | pkg/controller/alerting/rulegroup_controller.go:110-147 | every listing of the same groups asks for the same objects |
| Reconciler.Clear | pkg/controller/alerting/rulegroup_controller.go:115-123 | all of the level's objects go and no others |
| Reconciler.FindOwners | pkg/controller/alerting/rulegroup_controller.go:125-140 | one reference with name, kind, API version and uid of the live namespace; none, and no error, when it is gone or going |
| Reconciler.Apply | pkg/controller/alerting/rulegroup_controller.go:142-164 | writes the desired objects; requeues exactly when a foreign object blocks a name |
| Reconciler.ReconcileRules | pkg/controller/alerting/rulegroup_controller.go:91-165 | the part after the id pass: only the level's own objects change, and with reliable calls they change as the reconcile relation says, with a requeue exactly when a foreign object blocks |
| Reconciler.Reconcile | pkg/controller/alerting/rulegroup_controller.go:45-165 | under any failures only the level's own sources or objects change; with reliable calls the outcome is the reconcile relation, and it requeues exactly when a foreign object has a name the identified groups call for. The same method models pkg/controller/alerting/clusterrulegroup_controller.go and globalrulegroup_controller.go |
| Reconciler.StepReplaces | pkg/controller/alerting/rulegroup_controller.go:91-165 | with all ids present a reconcile replaces the selected objects by the desired ones of any listing |
| Reconciler.StepIsBetween | pkg/controller/alerting/rulegroup_controller.go:91-165 | however a reconcile with reliable calls ends, every object is as before, or as desired and not somebody else's |
| Reconciler.SettlesExactly | pkg/controller/alerting/rulegroup_controller.go:91-165 | with all ids present one reconcile settles the level if and only if no foreign object has a desired name |
| Reconciler.SettledIsFixed | pkg/controller/alerting/rulegroup_controller.go:45-165 | a reconcile of a settled level changes nothing |
| Reconciler.Converges | pkg/controller/alerting/rulegroup_controller.go:45-165 | from any store two reconciles settle the level, ids included, if and only if no foreign object has a name that is called for; a third then changes nothing |
| Reconciler.SelectedExactly | pkg/controller/alerting/rulegroup_controller.go:102-106 | which objects a level selects, label by label |
| Reconciler.SettledExactly | pkg/controller/alerting/rulegroup_controller.go:69-165 | a level is settled if and only if every rule of its enabled groups has an id and its objects hold, in the order of the names and filled greedily, exactly the convertible rules of its enabled groups, with its labels and owner reference |
| Reconciler.ReconciledIsConfined | pkg/controller/alerting/rulegroup_controller.go:45-165 | a reconcile with reliable calls is one of the runs that change only the level's own sources or objects |
| Reconciler.ForeignObjectBlocks | pkg/controller/alerting/util.go:386-391 | once every rule has an id, a foreign object under a desired name survives every sequence of the level's runs, failing or not, and the level is settled after none of them |
| Reconciler.ForeignObjectExample | pkg/controller/alerting/util.go:386-391 | a world with one rule group in which a foreign object blocks the cluster level |
| Isolation.SelectorsDisjoint | pkg/controller/alerting/rulegroup_controller.go:102-106 | no object is selected by two levels or by two namespaces |
| Isolation.WritesDisjoint | pkg/controller/alerting/rulegroup_controller.go:143-164 | runs of different levels, failing anywhere, in any store, never change the same object |
| Isolation.RunsCommute | pkg/controller/alerting/rulegroup_controller.go:45-165 | whatever A then B leads to, B then A leads to as well, id passes included |
| Isolation.RunsBringNoForeign | pkg/controller/alerting/rulegroup_controller.go:143-164 | no sequence of runs of any levels, failing anywhere, puts a foreign object under a level's name |
| Isolation.SettlesAfterFailures | pkg/controller/alerting/rulegroup_controller.go:45-165 | after any such sequence two reliable reconciles settle the level and a third changes nothing |
| RequestInfo.IsGlobalScopeResource | pkg/apiserver/request/requestinfo.go:367-374 | true exactly when the pair is in the list |
| RequestInfo.ResolveResourceScope | pkg/apiserver/request/requestinfo.go:347-365 | the scope by the precedence global, namespace, devops, workspace, cluster |
| RequestInfo.ParseParts | pkg/apiserver/request/requestinfo.go:148-207 | prefix, cluster, group, version and verb stages of the resolver, on any segments |
| RequestInfo.ParseWorkspace | pkg/apiserver/request/requestinfo.go:209-217 | the workspace, and the segments behind it when there are any |
| RequestInfo.ParseScope | pkg/apiserver/request/requestinfo.go:219-243 | namespace or DevOps project, and the segments from the resource on |
| RequestInfo.ParseScoped | pkg/apiserver/request/requestinfo.go:209-310 | everything after the version; an index panic on no segments |
| RequestInfo.FillParts | pkg/apiserver/request/requestinfo.go:245-258 | resource, name and subresource by position, no subresource for proxy |
| RequestInfo.SettleVerb | pkg/apiserver/request/requestinfo.go:262-308 | list, watch and deletecollection from name and query |
| RequestInfo.NewRequestInfo | pkg/apiserver/request/requestinfo.go:121-311 | the resolver with its deferred Kubernetes check, panics and errors included |
| RequestInfo.PanicsExactly | pkg/apiserver/request/requestinfo.go:148-258 | for every path and method all indexing is in range if and only if the path is not a groupless prefix followed by clusters with four segments in all |
| RequestInfo.BadExactly | pkg/apiserver/request/requestinfo.go:183-186 | an error is returned exactly when a verb in the path is followed by nothing |
| RequestInfo.ShortOrForeignPath | pkg/apiserver/request/requestinfo.go:134-156 | paths of fewer than three segments or without an API prefix: nothing is resolved but whether it is a Kubernetes discovery path |
| RequestInfo.IncompletePath | pkg/apiserver/request/requestinfo.go:160-177 | a grouped path without room for group, version and resource: prefix and cluster only |
| PathPrinter.SplitPrinted | pkg/apiserver/request/requestinfo.go:329-336 | splitting a printed path, with any slashes around it, gives back its segments |
| PathPrinter.RoundTrip | pkg/apiserver/request/requestinfo.go:96-310 | for every HTTP method and query a printed request resolves to exactly the fields written out from it (verb, name, workspace and scope under watch, field and label selectors included), if and only if its prefix is an API prefix and no reserved word stands in an ambiguous slot |
| ClusterPath.StripIsStructural | pkg/apiserver/filters/multicluster.go:98 | replacing the first "/clusters/{cluster}" in the text takes exactly those two segments out of the split path |
| ClusterPath.StripPreservesInfo | pkg/apiserver/filters/multicluster.go:76-98 | the stripped path resolves to the same description but for cluster and path |
| ClusterPath.StripPreservesHandler | pkg/apiserver/filters/multicluster.go:76-98 | who handles the request is preserved for every path with a cluster, however short |
| ClusterPath.StrippedNeverPanics | pkg/apiserver/filters/multicluster.go:76-98 | a stripped path whose remainder does not start with clusters never runs out of segments |
| Dispatch.ServeHTTP | pkg/apiserver/filters/multicluster.go:55-148 | for each kind of cluster the decision, the message sent and what happens to the request itself |
| Dispatch.RestoreAuthorization | pkg/apiserver/filters/requestinfo.go:35-42 | the carried Authorization is put back when the request has none of its own |
| Dispatch.RestoreAndResolve | pkg/apiserver/filters/requestinfo.go:29-66 | the restored request, and the resolution of its path and restored query |
| Dispatch.HeadersSurvive | pkg/apiserver/filters/requestinfo.go:35-42 | the member sees the cluster-free path, the client's first Authorization and all values of all other headers, in any spelling of their names |
| Dispatch.CarriersAreRemoved | pkg/apiserver/filters/requestinfo.go:35-59 | no Authorization is sent to the kube-apiserver, and the carrying headers are gone once they have served |
| Dispatch.QueryRestored | pkg/apiserver/filters/requestinfo.go:44-50 | disguising and undisguising dryRun is the identity if and only if a condition on the raw query alone holds |
| Dispatch.DryRunHidden | pkg/apiserver/filters/multicluster.go:124-130 | the kube-apiserver still sees a dryRun parameter if and only if one stands elsewhere than at the first dryRun in the text |
| Dispatch.QueryRoundTrip | pkg/apiserver/filters/requestinfo.go:44-59 | the member sees the original raw query if and only if a stated condition on query, upgrade and headers holds |
| Dispatch.OrdinaryDryRunSurvives | pkg/apiserver/filters/multicluster.go:124-130 | no literal dryrun and the first dryRun a parameter key suffice |
| Dispatch.UpgradeLosesDryRun | pkg/apiserver/filters/multicluster.go:132-138 | an upgrade request with dryRun arrives with another query |
| Dispatch.MemberSeesTheRequest | pkg/apiserver/filters/multicluster.go:94-148 | end to end the member resolves what the host resolved, with the client's credentials and query |
| AuditQueue.GetEvents | pkg/apiserver/auditing/backend.go:114-136 | returns all events received since its timer was set, when there are exactly as many as a batch may hold or the timer fires on fewer, and none when stop is closed |
| AuditQueue.RunWorker | pkg/apiserver/auditing/backend.go:98-112 | the worker loop is the fold of its select choices, and until stopped it loses and reorders nothing it receives |
| AuditQueue.PipelineRunsWorker | pkg/apiserver/auditing/backend.go:98-136 | in every run the pipeline's worker is that loop on what it received |
| AuditQueue.StepConserves | pkg/apiserver/auditing/types.go:261-270 | accepting, timing out, receiving, firing and stopping each keep the conservation law |
| AuditQueue.StepCutsBatches | pkg/apiserver/auditing/backend.go:118-135 | a batch is handed over when the timer fires on a batch that is not empty or an event fills it; any other event makes the open batch one longer |
| AuditQueue.EveryBatchCut | pkg/apiserver/auditing/backend.go:98-136 | in every run each handed batch was full when it was cut, or the timer fired on it |
| AuditQueue.AuditConservation | pkg/apiserver/auditing/backend.go:98-136 | in every state of every run handed batches, open batch and queue concatenate to the accepted events in order, and every handed batch is non-empty and not too large |
| AuditQueue.NothingAfterStop | pkg/apiserver/auditing/backend.go:132-133 | after stop the worker is frozen; exactly the open batch and the queue are not handed over |
| AuditQueue.EverythingIsHandedOver | pkg/apiserver/auditing/backend.go:114-136 | while running, receiving the queue and one timer tick hand over everything accepted |
| AuditSenders.StepLedger | pkg/apiserver/auditing/backend.go:146-197 | every step of every call keeps tokens plus debts equal to the calls that acquired and have not returned |
| AuditSenders.RunLedger | pkg/apiserver/auditing/backend.go:138-198 | that holds, with the tokens within capacity, at every moment of every interleaving, timely or not |
| AuditSenders.NothingLeft | pkg/apiserver/auditing/backend.go:187-191 | once all calls have returned no token is left and none is owed, timely or not |
| AuditSenders.ReleaseExactly | pkg/apiserver/auditing/backend.go:187-191 | where nothing is owed, a call on its way out finds a token and leaves the accounts right if and only if it has decided |
| AuditSenders.StepAccounts | pkg/apiserver/auditing/backend.go:146-197 | from a sound state a step leads to a sound state if and only if it is not an outer timeout before the call's own decision |
| AuditSenders.TokenAccounting | pkg/apiserver/auditing/backend.go:138-198 | in a run of any number of calls the tokens are the holders, within capacity, and every release finds its token, at every moment, if and only if every call decides before its outer timeout |
| AuditSenders.LostForGood | pkg/apiserver/auditing/backend.go:187-197 | once a call has taken a token it did not put in and has given up, some call that acquired is unreturned at every later moment |
| AuditSenders.UntimelyRunLoses | pkg/apiserver/auditing/backend.go:187-197 | a run in which that happens and another call is blocked on its release |
| AuditSenders.ConfiguredTimeoutsAreTimely | pkg/apiserver/auditing/backend.go:33-36 | with the configured one and three seconds, counted from each call's start, a run whose decisions come less than two seconds late is timely |
| AuditSenders.TwoSecondsAreTooMuch | pkg/apiserver/auditing/backend.go:33-36 | with decisions two seconds late or more there is a run that is not |
| Unjoin.ClusterPair.Delete | pkg/controller/cluster/unjoin.go:241-255 | any answer may come; confirmed objects are gone, only the named object can go |
| Unjoin.DeleteInOrder | pkg/controller/cluster/unjoin.go:236-310 | with force all deletions are called in order whatever fails; without, in order up to the first failure, and nothing else goes |
| Unjoin.DeleteClusterRoleAndBinding | pkg/controller/cluster/unjoin.go:227-313 | the same for the role objects; nothing in a dry run |
| Unjoin.DeleteServiceAccount | pkg/controller/cluster/unjoin.go:202-222 | exactly the account's deletion is called, and it fails exactly when that does; nothing in a dry run |
| Unjoin.DeleteRBACResources | pkg/controller/cluster/unjoin.go:142-158 | role objects and then the account, all of them with force, up to the first failure without |
| Unjoin.DeleteFedNamespace | pkg/controller/cluster/unjoin.go:163-197 | the namespace's deletion is called exactly when both namespaces are known and differ; an unanswered lookup is a failure |
| Unjoin.DeleteFederatedClusterAndSecret | pkg/controller/cluster/unjoin.go:91-138 | when the record is found, secret and then record, with force whatever fails; an unanswered lookup is the only failure of a forced run |
| Unjoin.CleanMember | pkg/controller/cluster/unjoin.go:63-79 | the member part: roles, account and namespace in that order, all with force, up to the first failure without |
| Unjoin.UnjoinCluster | pkg/controller/cluster/unjoin.go:38-87 | which deletions are called in which order, what else can go, and when the run fails, for every mode, every set of clients and arbitrary failures |
| Unjoin.RecordIsLast | pkg/controller/cluster/unjoin.go:38-87 | in an unforced run the record's deletion is called only after roles, account, namespace (unless the host's) and secret went through, and success means the member side is clean |
| Unjoin.SuccessRemovesRecord | pkg/controller/cluster/unjoin.go:81-86 | an unforced success leaves no record |
| Unjoin.ForcedTriesAll | pkg/controller/cluster/unjoin.go:38-138 | a forced run attempts every role object, the account, a known and different namespace, and a found record after its secret; it fails only when the record cannot be looked up |
| Unjoin.PlanCoversJoin | pkg/controller/cluster/join.go:266-325 | what unjoining sets out to delete is exactly what joining can have created, in either scope |
| Unjoin.RecordGoneMeansAllGone | pkg/controller/cluster/unjoin.go:63-85 | once the record's deletion was called, role objects, account and secret no longer exist |
| Conditions.ApplicationStatus.Set | pkg/controller/application/condition.go:50-73 | the last condition of the type is revised, or one is added |
| Conditions.ApplicationStatus.Add | pkg/controller/application/condition.go:75-86 | one condition appended with both times now |
| Conditions.SetFrame | pkg/controller/application/condition.go:50-73 | the condition says what was set and no other type's condition changes |
| Conditions.SetAgain | pkg/controller/application/condition.go:60-63 | saying it again at any time changes nothing |
| Conditions.History | pkg/controller/application/condition.go:50-86 | after any calls there is one condition per type set, saying what the latest call said, with the times of the latest change of anything and of the latest change of status |
| Conditions.TransitionNotAfterUpdate | pkg/controller/application/condition.go:64-68 | with a clock that does not run backwards no transition is later than the update |
| AppStatus.ObjectStatuses | pkg/controller/application/application_controller.go:201-220 | one status per component in order, and all component errors appended |
| AppStatus.AggregateReady | pkg/controller/application/application_controller.go:222-233 | the number of ready components, and whether all are |
| AppStatus.SetReadiness | pkg/controller/application/application_controller.go:121-127 | the ready condition set to unknown, true or false |
| AppStatus.SetError | pkg/controller/application/application_controller.go:129-133 | the error condition set or cleared |
| AppStatus.GetNewApplicationStatus | pkg/controller/application/application_controller.go:110-136 | the whole new status as a function of the stored one |
| AppStatus.StatusLists | pkg/controller/application/application_controller.go:110-120 | one entry per component with its group, kind, name, link and status; the figure of ready over all components; the generation |
| AppStatus.ReadyMeansReady | pkg/controller/application/application_controller.go:121-136 | ready is unknown under any error, true when all components are ready and else false with their number; error is true exactly under an error, with all errors in order; other conditions stay |
| AppStatus.Quiescent | pkg/controller/application/application_controller.go:84-136 | the status computed from a computed status is that status, whatever conditions were there at first |
| AppStatus.Application.Write | pkg/controller/application/application_controller.go:87-93 | the status becomes the computed one unless the server refuses; fails exactly when a write that was due is refused |
| AppStatus.Application.Reconcile | pkg/controller/application/application_controller.go:79-94 | writes the new status once, and nothing if it equals the stored one or the application is being deleted |
| AppStatus.ReconcileRepeatedly | pkg/controller/application/application_controller.go:79-94 | over any number of reconciles of an unchanged application the status is written at most once, by the first whose update is accepted, and is final from then on |
| Pagination.IndicesValidExactly | pkg/apiserver/query/types.go:80-100 | the indices delimit a slice if and only if offset plus limit does not overflow on a usable offset |
| Pagination.IndicesCanCross | pkg/apiserver/query/types.go:116-130 | request parameters for which the end comes before the start |
| Pagination.NoLimitShowsAll | pkg/apiserver/query/types.go:80-85 | without a limit every result is shown, whatever the page |
| Pagination.NoPageShowsFirst | pkg/apiserver/query/types.go:116-130 | without a page the results up to the limit are shown, and none for a negative limit |
| Pagination.PagesPartition | pkg/apiserver/query/types.go:80-130 | the pages from 1 to ceil(total / limit) concatenate to the results |
| Pagination.OtherPagesEmpty | pkg/apiserver/query/types.go:87-100 | every other page is empty |

## Conditions that are not in the code

- Convergence, commutation and settling assume that marshalling a rule group succeeds; convergence and settling also
  that the namespace is live, commutation also that no foreign object sits under a generated name.
- Cluster stripping assumes that `clusters` is not itself an API prefix, as in pkg/apiserver/apiserver.go:312.
- Each of the three lookups of an unjoin run is made at most once, so whether it is answered is fixed beforehand, as an
  arbitrary value.
- A nil label or annotation map is the empty map; the code's nil checks only avoid writing to a nil map.
- The string key namespace/name of the bulk update is the pair: a namespace holds no slash.
- `yaml.Marshal`, the PromQL enforcer, error aggregation and query decoding are function parameters, so every result
  holds for all of them.

## Left out

- PromQL parsing and matcher injection, YAML content, UUID generation: parameters or arbitrary values.
- Resource versions: with no other writer they always match, so a conflict is only ever a spurious failure here.
- Stale reads from the controllers' informer cache: list and get see the current store.
- Namespace-level listing with an empty namespace: the controller is only ever queued with a group's namespace.
- Liveness of send goroutines and the number of posts in flight: after an outer timeout a post can outlive its token.
- Dispatch.ServeHTTP: percent-encoding, RawPath and transports are not modelled.
- Dispatch.QueryRoundTrip: percent-encoded parameter names, and parameters holding a semicolon, which Go leaves out when it looks for a key, are not modelled.
- List-options decoding, field and label selector parsing: only their results enter the resolver.
- Source address and user agent fields of a request description.
- ResponseCapture, request and response logging of the audit filter: straight-line bookkeeping.
- Convergence of unforced unjoin retries: once the member namespace is gone its lookup fails and ends the run.
- Owner references of application components: every reconcile rewrites them, so quiescence is about the status only.
- Fetching components by group kind, the retry loop of the status update, selectors on applications.
- Sorting, filters and label selectors of a list query: only limit and page are modelled.
- CSR controller, cluster webhook, kubeconfig building, informers, schemes, configuration, authentication and authorization filters.
