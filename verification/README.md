# Verified model of the kubepage dashboard operator

kubepage is a Kubernetes operator, and the dashboard pod it deploys. This project
models the parts of both whose correctness depends on more than one function at a
time, and proves what they promise:

- **The controller's grants.** A Dashboard's discovery and pod-monitor RoleBindings
  live in other namespaces, can carry no owner reference, and are never listed. The
  only way to find them again is a list in the Dashboard's own status, so the
  controller writes that list ahead of every create and narrows it after the
  deletes. `GrantProtocol` is a state machine over the API server's versions of the
  object, a lagging cache, the RBAC objects and the reconcile in progress, one event
  per API call. Any call may work, fail, or work and be reported as failed; the
  controller may crash between any two; users may edit, delete and recreate the
  object at any time. In every run, every namespace that holds a RoleBinding is in
  the stored record, whatever cannot be garbage collected implies the finalizer, and
  the step that removes the finalizer leaves nothing behind. `GrantCalls` says what the
  failure of a call comes to, and `GrantEnding` that every reconcile comes to its end,
  whatever becomes of its calls. `GrantProgress` and
  `GrantSettling` add what the protocol achieves once nothing goes wrong any more: from
  every reachable state, also from the middle of a reconcile, undisturbed calls complete
  a deletion, or bring RoleBindings and ClusterRoles exactly to what the spec wants and
  the metrics objects into existence exactly if they are wanted. The stored record then
  covers the RoleBindings; it is exact if and only if the reconcile got to its closing
  status write, or that had nothing to narrow. `GrantReconcile` has the same two
  reconcilers as straight-line code with loops, with the same outcome.
- **The poll cycle.** `PollPool` is the pool of `pollOnce`: tasks that submit tasks,
  eight slots, a wait group, and the prunes that follow the wait. For every
  interleaving: at most eight bodies run, no run gets stuck, every run ends within a
  bound, the wait returns only when every task is done, and the cards left are
  exactly those the cycle marked. `PollRefresh` follows the card
  of a widget that is not due: its task reads the card and writes it back in two
  accesses to the store, and the card at the end is told exactly from the order of the
  accesses. `PollOutcome` follows all other cards, and decides which keys are turned
  down. `PollCycle` is what the cycle submits for the objects it finds, and
  `PollHistory` strings cycles together, finished or cut short: the store always shows
  exactly the cards it should, each as its own entry's poll or monitor left it, a widget
  with a poll time always has a card, and the exported metric series are those of the
  last cycle. `PollWitness` walks through two
  histories step by step. `PollerState` has the interval bookkeeping and the metric
  labels, and `PollKeys` the card keys.
- **The broadcaster.** `Broadcaster` is the latest-value-wins fan-out over one-slot
  channels. Receivers run between any two channel operations of a publication.
- **Annotations and names.** `Annotations` is the three-way merge whose memory is a
  comma-joined list among the merged annotations; `RbacNames` is the length-prefixed
  name encoding with its truncation.
- **Binding and Secrets.** `Binding` relates the three places that decide which
  Dashboard an object belongs to. `WatchCoverage` shows that no config object sits on
  an outdated verdict unnoticed, and `WatchDrain` that the events and requests die
  down, with every verdict right for whatever cluster users have made. `SecretGrants` compares the Secrets the controller grants with those the pod
  reads, and shows exactly when a pod that may read only its grants polls as if it could
  read everything.
- **Order and dedupe.** `Store` and `Display` show that what the page shows does not
  depend on the order of a map or of an API list; `FailureLog` compares the bounded
  failure log with an unbounded one.

`Ordering` and `Text` hold what these share: comparison functions and sorting,
`strings.Cut`, `Join`, `Split`, and decimal notation.

Check the project with `dafny verify dfyconfig.toml`.

## Where the code falls short of its description

Each of these is proved, together with the exact condition under which the code does
meet the description.

- The status lists are described as the namespaces the grants currently apply to. A
  reconcile that creates or updates the Deployment returns without a status write, and a
  namespace dropped in the same edit stays listed although its RoleBinding is gone
  (`DriftWitness`). The list is exact if and only if the closing write is reached or has
  nothing to take out (`ReconcileSettles`, `StoredIsExactIff`); the next reconcile that
  leaves the Deployment alone makes it exact (`NextReconcileNarrows`).
- A user who sets the record's own annotation key gets the record instead of the wanted
  value, unless the two are equal (`DesiredIsHonoured`; `OwnKeyWitness` is an example).
- Objects are created with the desired annotations but without the record. The first
  merge after that is exact if and only if it still wants every created key
  (`FirstMergeAfterCreate`, which also covers a user's text under the record's own key).
  A key it dropped stays exactly as long as no later merge wants it
  (`LeftoverIffNeverWanted`; `FirstMergeWitness` is an example).
- A cut RBAC name is also the whole name of one other Dashboard of the namespace: two
  Dashboards share a name if and only if one is this namesake of the other, or both
  names are cut, keep the same part and have the same digest (`NamesClashIff`;
  `ClashWitness` has an example). A Dashboard whose full name is shorter than the limit
  shares it with nobody (`ShortNamesNeverClash`).
- The comment on `mergeMonitorIntoStoredCard` describes a first cycle in which no card
  is stored yet. That branch is never taken, whatever the objects are called
  (`MergesFindTheirCards`).
- The same comment says that a widget's own error is left untouched. The card has one
  error field for widget and monitor: the merge keeps it if and only if the monitor has
  no error, errors are hidden, or the two are equal (`RefreshKeeps`), and an error of
  the monitor stays after the monitor has recovered, until the widget is next polled
  (`ErrorOutlivesItsCause`, with an example in `ErrorWitness`).
- A discovered HTTPRoute can have the key of a ServiceCard's widget: in a namespace
  called "discovery" with a ServiceCard called "httproute" (`KeysClash` says exactly
  when). Otherwise a widget that is not due keeps its card, refreshed by its monitor
  (`NotDueKeepsItsContent`). With such a route the widget survives if and only if every
  store of a route falls between the read and the write of its merge
  (`NotDueAgainstRoute`); both happen (`OrderDecides`).
- A Secret can be granted that no widget reads; `GrantIsReadOrSpare` has the complete
  list of reasons, `SpareWitness` and `HeaderCaWitness` are examples.
- Which of two bookmarks comes first is open if and only if they are in one group and
  share order and name (`PageIsDeterminedIff`).
- A metric series whose label contains the unit separator (entry names are free text)
  is never unexported. All others are (`ExportedIsProbed`; `SeparatorWitness` is an
  example).

## Model

| member | source | states |
|---|---|---|
| GrantProtocol.GrantsAreAlwaysRecorded | internal/controller/dashboard_rbac.go:706-766 | In every reachable state, each namespace holding a RoleBinding of either family is in the record stored for that family, though each family's status write stores both records. |
| GrantProtocol.GrantsImplyFinalizer | internal/controller/dashboard_controller.go:268-275 | In every reachable state, any object garbage collection cannot reach implies that the Dashboard exists and carries the finalizer. |
| GrantProtocol.FinalizerIsRemovedLast | internal/controller/dashboard_controller.go:279-332 | Whatever failed and was retried before, a step that removes the finalizer leaves no cross-namespace RoleBinding, no family or metrics ClusterRole and no metrics ClusterRoleBinding, and the Dashboard is being deleted. |
| GrantProtocol.RunKeepsInv | internal/controller/dashboard_controller.go:227-429 | The invariant behind the three results holds at the end of every run of API calls, faults, crashes, edits and cache movements. |
| GrantProtocol.StepKeepsInv | internal/controller/dashboard_controller.go:227-429 | Every single event keeps the invariant, and only a deleting Dashboard loses its finalizer. |
| GrantProtocol.FinalizeKeepsInv | internal/controller/dashboard_controller.go:478-498 | Every call of the deletion branch keeps the invariant, in the code's order and with its retries. |
| GrantProtocol.FinalizeEndKeepsInv | internal/controller/dashboard_controller.go:301-329 | Removing the finalizer keeps the invariant: by then nothing is left and the cache shows only versions being deleted. |
| GrantProtocol.MetricsKeepsInv | internal/controller/dashboard_rbac.go:524-651 | Creating and dropping the metrics ClusterRole and ClusterRoleBinding keep the invariant; what they achieve is in `GrantSettling.Settles`. |
| GrantProtocol.PersistKeepsInv | internal/controller/dashboard_rbac.go:743-746 | The write ahead: storing the union of the old and the wanted namespaces loses no grant of either family. |
| GrantProtocol.BindOneKeepsInv | internal/controller/dashboard_rbac.go:809-836 | A RoleBinding is only created in a namespace the stored record already names. |
| GrantProtocol.PruneOneKeepsInv | internal/controller/dashboard_rbac.go:845-854 | Deleting one RoleBinding keeps the invariant, whatever becomes of the call. |
| GrantProtocol.NarrowKeepsInv | internal/controller/dashboard_rbac.go:760-765 | The record may drop the old namespaces once none of them holds a RoleBinding. |
| GrantProtocol.FamilyKeepsInv | internal/controller/dashboard_rbac.go:916-955 | Every call of the discovery and the monitor reconciler keeps the invariant. |
| GrantProtocol.AddFinalizerKeepsInv | internal/controller/dashboard_controller.go:268-275 | Adding the finalizer keeps the invariant, also against a stale read of a deleted object. |
| GrantProtocol.UpdateStatusKeeps | internal/controller/dashboard_controller.go:247-263 | A status write from an object that is still current covers every grant; any other write is refused by its resourceVersion. |
| GrantCalls.FatesAreKept | internal/controller/dashboard_controller.go:227-429 | Wherever the code stands: a call that fails changes nothing in the cluster; one that works and is reported as failed does to the cluster what it does and to the controller what the failure does. |
| GrantCalls.CreatesNeedAbsence | internal/controller/dashboard_rbac.go:565-610 | Where a lagging cache does not show an object that exists, its create is refused, changes nothing, and the refusal is reported in the status. |
| GrantCalls.CreatesDecide | internal/controller/dashboard_rbac.go:565-610 | Otherwise the reconcile goes on if and only if the create is known to have worked. |
| GrantCalls.DropsComeBeforeGrants | internal/controller/dashboard_rbac.go:626-651 | Both metrics objects are tried, even if the first delete fails; the reconcile goes on to the RoleBindings if and only if both are known to be gone, and otherwise reports the failure. |
| GrantCalls.DropsComeBeforeTheEnd | internal/controller/dashboard_controller.go:478-498 | The deletion branch does the same, and on a failure ends with the finalizer in place. |
| GrantCalls.StartsByWhatItReads | internal/controller/dashboard_controller.go:227-275 | Where a reconcile starts: first the conditions decide, then the finalizer, then whether the object is being deleted. |
| GrantCalls.DeploymentHasFourWays | internal/controller/dashboard_controller.go:634-694 | The Deployment step ends the reconcile, goes on, reports its failure, or reads the object again and reports; it can take each of these ways, touches no grant, and only a call that went well leads to the closing write. |
| GrantReconcile.Reconciler.ReconcileFamily | internal/controller/dashboard_rbac.go:706-766 | Whatever fails, both records go on covering all grants of both families; on success the grants, the record and the ClusterRole are exactly the wanted ones, the other family is untouched, and grants that were right are not touched. |
| GrantReconcile.Reconciler.ReconcileGrants | internal/controller/dashboard_controller.go:334-429 | A reconcile up to its end, which comes early, without a status write, if the Deployment has to be touched. On success both families' grants are exact, and untouched if they were right; the stored record is exact with the closing write, and without it exactly what the last write-ahead made of the old one. |
| GrantReconcile.Reconciler.EnsureBindings | internal/controller/dashboard_rbac.go:748-752 | The create loop adds RoleBindings only in listed namespaces, and on success in all of them. |
| GrantReconcile.Reconciler.DeleteBindings | internal/controller/dashboard_rbac.go:845-854 | The delete loop removes only listed namespaces, and on success all of them. |
| GrantReconcile.Reconciler.CollectRemoved | internal/controller/dashboard_rbac.go:754-759 | The namespaces to drop are those recorded before and no longer wanted. |
| GrantReconcile.ReconcileTwice | internal/controller/dashboard_controller.go:334-429 | From any recorded state, a reconcile without faults leaves RoleBindings exactly at the wanted namespaces, never the own one, and the record exact if and only if the Deployment needs no change or nothing has to be taken out; a second one changes no RoleBinding and makes the record exact. |
| GrantReconcile.StoredIsExactIff | internal/controller/dashboard_rbac.go:743-746 | What the write-ahead leaves stored is the wanted lists if and only if the old monitor list, and the discovery list if no monitors are wanted, name nothing that is no longer wanted. |
| GrantProgress.DeletionCompletes | internal/controller/dashboard_controller.go:279-332 | From every reachable state with a deleting Dashboard and no reconcile running, whatever faults led to it, one undisturbed reconcile removes the finalizer within a bound read off the records, and leaves nothing behind. |
| GrantProgress.EndingCall | internal/controller/dashboard_controller.go:279-332 | Every undisturbed call of the deletion branch brings its end nearer, and the last one removes the finalizer. |
| GrantProgress.DeletionCompletesFromAnywhere | internal/controller/dashboard_controller.go:279-332 | The same from every reachable state, with a reconcile running anywhere in its code: undisturbed calls end it within a bound, and if the finalizer is still there the next reconcile removes it. |
| GrantProgress.AskedToGoItGoes | internal/controller/dashboard_controller.go:279-332 | From every reachable state with no reconcile running: a user asks for the deletion, one undisturbed reconcile follows, the API server drops the object, and nothing of it is left. |
| GrantEnding.EveryReconcileEnds | internal/controller/dashboard_controller.go:227-429 | Whatever becomes of its calls, whatever the cache shows and users do meanwhile, a running reconcile ends within a number of calls known from its state and the longest lists of namespaces. |
| GrantEnding.CallNears | internal/controller/dashboard_controller.go:227-429 | Every single call, applied, failed, or applied and reported as failed, ends the reconcile or lowers the number of calls left. |
| GrantSettling.HonestAdvances | internal/controller/dashboard_controller.go:227-429 | Every undisturbed call of a reconcile of a live Dashboard lowers the number of calls left, and the last one leaves the grants of both families settled, wherever the code returns. |
| GrantSettling.HonestGoesWell | internal/controller/dashboard_rbac.go:524-651 | Every such call keeps the metrics objects on their way, and the last one leaves the ClusterRole and the ClusterRoleBinding existing if and only if they are wanted. |
| GrantSettling.Settles | internal/controller/dashboard_controller.go:334-429 | One undisturbed reconcile leaves RoleBindings and ClusterRoles of both families exactly as the spec wants them, the metrics ClusterRole and ClusterRoleBinding existing exactly if they are wanted, whatever else it finds to do, and the stored record as the closing write, or without it the last write-ahead, leaves it. |
| GrantSettling.ReconcileSettles | internal/controller/dashboard_controller.go:634-694 | The same from every reachable state with no reconcile running, whatever faults led to it; the stored record covers the grants, and is exact if and only if the Deployment needs no change or nothing has to be narrowed. |
| GrantSettling.ReconcileSettlesFromAnywhere | internal/controller/dashboard_controller.go:227-429 | And from every reachable state with a reconcile running anywhere in its code, the metrics objects included. |
| GrantSettling.NextReconcileNarrows | internal/controller/dashboard_rbac.go:760-765 | After any undisturbed reconcile, the next one without a change to the Deployment makes the record exact and changes no RoleBinding. |
| GrantSettling.DriftWitness | internal/controller/dashboard_controller.go:690-694 | From creation on, two undisturbed reconciles around one edit that drops a namespace and changes the Deployment: the RoleBinding is gone, the namespace is still recorded. |
| GrantSettling.SecondReconcileChangesNothing | internal/controller/dashboard_rbac.go:706-766 | Where the RoleBindings are right, no call of an undisturbed reconcile changes one, whatever the record says. |
| GrantReconcile.OwnIsNotDesired | internal/controller/dashboard_rbac.go:678-691 | The wanted list is sorted, without repeats, and has exactly the spec's namespaces except the Dashboard's own. |
| GrantProtocol.Union | internal/controller/dashboard_rbac.go:861-867 | The union has exactly the members of both lists, sorted and without repeats. |
| RbacNames.NamesFitAndDecode | internal/controller/dashboard_rbac.go:463-515 | Every name has at most 253 characters, and one that was not cut decodes to its family, namespace and name. |
| RbacNames.FullDecodes | internal/controller/dashboard_rbac.go:489-498 | The length-prefixed encoding loses nothing, hyphens in either part included. |
| RbacNames.FamiliesNeverShareAName | internal/controller/dashboard_rbac.go:875-884 | Metrics, discovery and monitor names differ, across Dashboards and even when cut. |
| RbacNames.ClashNeedsTruncation | internal/controller/dashboard_rbac.go:463-498 | Two whole names of a family that are equal belong to one Dashboard; two cut ones need equal digests. |
| RbacNames.DigestInputSeparates | internal/controller/dashboard_rbac.go:489-515 | What is digested tells two Dashboards apart. |
| RbacNames.CutNameIsAnothersWholeName | internal/controller/dashboard_rbac.go:489-498 | A name cut behind its namespace is the whole name of another Dashboard there. |
| RbacNames.CutAndWholeClash | internal/controller/dashboard_rbac.go:489-498 | A name cut behind its namespace and a whole name are equal if and only if the whole one belongs to one particular Dashboard. |
| RbacNames.CutNamesClash | internal/controller/dashboard_rbac.go:489-515 | Two cut names of a family are equal if and only if they keep the same part and have the same digest. |
| RbacNames.NamesClashIff | internal/controller/dashboard_rbac.go:463-515 | The exact condition under which two Dashboards share a name of a family. |
| RbacNames.ShortNamesNeverClash | internal/controller/dashboard_rbac.go:463-498 | A Dashboard whose full name is shorter than the limit shares it with nobody. |
| RbacNames.ClashWitness | internal/controller/dashboard_rbac.go:489-498 | Two Dashboards in one namespace, with names of 240 and 237 characters, that share a name. |
| RbacNames.NamesRead | internal/controller/dashboard_rbac.go:463-515 | The three names of "home" in "team", and where a name longer than 253 characters is cut. |
| Annotations.MergeManagedAnnotations | internal/controller/dashboard_network.go:38-61 | The in-place merge computes `Merged`, about which the following rows speak. |
| Annotations.PruneRecorded | internal/controller/dashboard_network.go:44-51 | The prune loop drops exactly the recorded keys that are no longer desired. |
| Annotations.RecordReadsBack | internal/controller/dashboard_network.go:44-59 | The record reads back as the keys it was written for if and only if each is non-empty and has no comma; Kubernetes lets no other key be an annotation. |
| Annotations.MergeReplacesDesired | internal/controller/dashboard_network.go:38-61 | Merging into a managed object replaces the old desired map by the new one and touches nothing of others. |
| Annotations.AnnotationsStayExact | internal/controller/dashboard_network.go:142-155 | Over any sequence of merges with changing desired maps and writes by others, the object holds the others' last values, exactly the current desired map, and the record. |
| Annotations.OthersHoldLastWrite | internal/controller/dashboard_network.go:142-155 | Among the others' values the last write to a key stands. |
| Annotations.DesiredIsHonoured | internal/controller/dashboard_network.go:52-59 | Every desired annotation comes out as desired if and only if the record's own key is not misused. |
| Annotations.MergeIsIdempotent | internal/controller/dashboard_network.go:142-155 | Merging again changes nothing, so the guarded update is not repeated. |
| Annotations.FirstMergeAfterCreate | internal/controller/dashboard_network.go:132-137 | The first merge after a create is exact if and only if it still wants every created key that no text under the record key names, and that text names no key of others. |
| Annotations.LeftoverIffNeverWanted | internal/controller/dashboard_network.go:38-61 | Over any sequence of merges and writes by others: a key the record does not name stays with its value exactly as long as no merge wants it, and from then on is there exactly while it is wanted. |
| Annotations.FirstMergeWitness | internal/controller/dashboard_network.go:132-137 | An annotation dropped from the spec before the first merge is still there after any number of merges. |
| Annotations.OwnKeyWitness | internal/controller/dashboard_network.go:52-59 | A user's value under the record's key comes out as the record. |
| Annotations.FirstMergeWithoutMisuse | internal/controller/dashboard_network.go:132-137 | Without the record key among the created ones: if and only if it still wants every created key. |
| Binding.BoundToAtMostOne | api/v1alpha1/common_types.go:58-63 | No object belongs to two existing Dashboards. |
| Binding.BoundToIsClaims | api/v1alpha1/common_types.go:58-63 | An object is bound to a Dashboard if and only if it names it, or names none (unset or empty) and there is exactly one Dashboard. |
| Binding.ConditionAgreesWithBoundTo | internal/controller/conditions.go:77-129 | The Available verdict is True if and only if some existing Dashboard satisfies BoundTo, and blames ambiguity if and only if the reference is unset and there are two. |
| Binding.ReasonsAre | internal/controller/conditions.go:77-129 | Each reason has exactly its own case: Bound, if the object is some existing Dashboard's; DashboardNotFound, if it names one that does not exist, or none and there is none; AmbiguousDashboardRef, if it names none and there are two. |
| Binding.CountBound | internal/controller/dashboard_controller.go:516-551 | The counting loop counts the references that name the Dashboard, or name none where it is the only one. |
| Binding.CountsAddUpToTrueVerdicts | internal/controller/dashboard_controller.go:516-551 | The bound counts of a namespace's Dashboards add up to the number of True verdicts. |
| WatchCoverage.MapDashboardToRequests | internal/controller/bound_config_reconciler.go:143-165 | The two lookups request every affected object, once, and no other. |
| WatchCoverage.NewDashboardsNewVerdict | internal/controller/bound_config_reconciler.go:143-165 | A Dashboard event that changes an object's verdict concerns the object, so the lookups miss nothing. |
| WatchCoverage.EveryDashboardEventQueues | internal/controller/bound_config_reconciler.go:143-165 | A Dashboard that comes, goes or changes queues every object that names it or names none. |
| WatchCoverage.StaleVerdictIsQueued | internal/controller/bound_config_reconciler.go:83-119 | In every run, an object with an outdated verdict is queued, being reconciled, or about to be queued by an event on its way. |
| WatchCoverage.AtRestVerdictsAreRight | internal/controller/bound_config_reconciler.go:83-119 | Once events and queue have drained every verdict is right: available exactly when bound and valid, and each of the four reasons exactly in its own case. |
| WatchDrain.ComesToRest | internal/controller/bound_config_reconciler.go:83-165 | From every reachable state, an undisturbed run of deliveries, notices and reconciles, in any order in which none starts on an object whose news is still on its way, ends within a bound; where it cannot go on all is drained and every verdict is right. |
| WatchDrain.RunsAreBounded | internal/controller/bound_config_reconciler.go:83-165 | Without that restriction the bound grows by three steps for each reconcile that started too early; status writes queue their own object and still the run ends. |
| WatchDrain.RestIsReached | internal/controller/bound_config_reconciler.go:83-165 | Such a run to rest exists from every reachable state. |
| WatchDrain.EveryClusterSettles | internal/controller/bound_config_reconciler.go:83-165 | Whatever happened before, users can make any cluster out of what is there, and from there the controller alone comes to rest with the right verdict on each of exactly these objects, for exactly these Dashboards. |
| WatchDrain.StuckOnlyAtRest | internal/controller/bound_config_reconciler.go:83-165 | No step is possible if and only if all is drained. |
| WatchCoverage.FinishKeepsInv | internal/controller/bound_config_reconciler.go:83-119 | The status write, refused on a changed object and requeued on any error, keeps the invariant. |
| WatchCoverage.ReconcilesEnd | internal/controller/bound_config_reconciler.go:83-119 | A reconcile is over after at most two more calls, whatever becomes of them, and an error queues its object again. |
| WatchCoverage.LookKeepsInv | internal/controller/conditions.go:77-129 | Reading the Dashboards after the object, from a cache that may have moved in between, keeps it. |
| WatchCoverage.NoticeDashboardKeepsInv | internal/controller/bound_config_reconciler.go:143-165 | Handling a Dashboard event later than the cache took it in keeps it. |
| SecretGrants.ReadIsReferenced | internal/dashboard/poller.go:1314-1350 | Every Secret the pod can read for a bound widget, by itself or through the defaults of its type, is among the referenced ones. |
| SecretGrants.ReadableIsGranted | internal/controller/dashboard_rbac.go:189-266 | Such a Secret is granted always under the default policy, and under Labeled if and only if it carries the label. |
| SecretGrants.GrantSuffices | internal/dashboard/poller.go:1314-1350 | Every widget the pod polls resolves from the Secrets its Role lets it read exactly as from the whole cluster, value for value, always under the default policy; under Labeled if and only if everything it needs is labelled or the auth Secret, or it does not resolve anyway. |
| SecretGrants.AllowedPollResolves | internal/dashboard/poller.go:1314-1350 | From a part of the cluster a widget resolves if and only if it resolves from the whole and every Secret it needs is in the part: take one away, and the answer changes. |
| SecretGrants.ResolvedIsLocal | internal/dashboard/poller.go:1255-1277 | Two clusters that agree on the Secret a source names give it the same value. |
| SecretGrants.ResolvedNeedsItsSecrets | internal/dashboard/poller.go:1255-1277 | Without a Secret it names a source does not resolve. |
| SecretGrants.FieldsByPrecedence | internal/dashboard/poller.go:1314-1350 | A field has the widget's own value, else the secretRef's, else the default of its type. |
| SecretGrants.ResolvesIfAllIsThere | internal/dashboard/poller.go:1314-1350 | A poll gets as far as the network if and only if everything is there: each source a value or a key that exists, the secretRef, and the CA of the widget or else of the defaults where one is used. |
| SecretGrants.MergeFillsGaps | internal/dashboard/widget_defaults.go:15-37 | Merging with the defaults of the type fills gaps and changes nothing the widget has. |
| SecretGrants.GrantIsReadOrSpare | internal/controller/dashboard_rbac.go:189-266 | A Secret is granted for the widgets if and only if the policy allows it and some widget can read it, or the defaults mention it, or a widget of an unimplemented type names it, or it is the CA of a header widget that asks the Kubernetes API. |
| SecretGrants.SpareWitness | internal/controller/dashboard_rbac.go:189-266 | A widget of a type the pod's image does not know: its Secret is granted and nothing reads it. |
| SecretGrants.HeaderCaWitness | internal/dashboard/poller.go:1171-1232 | A header widget that asks the Kubernetes API and names a CA all the same: the CA's Secret is granted and nothing reads it. |
| SecretGrants.ReferencedSecretNames | internal/controller/dashboard_rbac.go:189-266 | The nested loops collect exactly the names the policy allows, sorted and without repeats. |
| SecretGrants.FilterLabeled | internal/controller/dashboard_rbac.go:284-300 | The filter keeps exactly the labelled names, in order. |
| SecretGrants.SecretRule | internal/controller/dashboard_rbac.go:375-390 | There is no Secret rule if and only if nothing is granted; otherwise its names are sorted, unique and exactly the granted ones, from which `GrantSuffices` resolves. |
| SecretGrants.ResolveWidgetSecrets | internal/dashboard/poller.go:1314-1350 | It succeeds if and only if everything referenced exists in its Secret under its key; then each field has the widget's own value, else the secretRef's, else the default, and the CA likewise; it asks only for Secrets that `Needs` names. |
| SecretGrants.NeedIsOwnOrDefault | internal/dashboard/widget_defaults.go:15-37 | What a widget needs it names itself, or the defaults of its type do. |
| PollPool.WaitMeansDone | internal/dashboard/poller.go:208-218 | In every interleaving at most eight bodies run, a waiting task can start if and only if fewer than eight do, and when the wait can return every task has finished, however deeply submitted, and everything was marked and recorded. |
| PollPool.EveryRunFinishes | internal/dashboard/poller.go:208-218 | Every run has at most a number of steps known at its start, and can go on if and only if the cycle is not finished: no deadlock, no livelock. |
| PollPool.NeverStuck | internal/dashboard/poller.go:261-284 | Some step is possible until the cycle is over, though tasks submit tasks while holding a slot. |
| PollPool.StepsRunOut | internal/dashboard/poller.go:208-218 | Every step brings the end of the cycle nearer. |
| PollPool.StepKeepsPoolInv | internal/dashboard/poller.go:208-218 | The wait group counts the unfinished tasks and the channel the running bodies, and tasks finished, in the pool and still to be submitted add up to the same number. |
| PollPool.CardsAreTheKeptOnes | internal/dashboard/poller.go:351-355 | After a finished cycle the store's keys are exactly the keep set and exactly the marked keys; nothing set in the cycle is pruned or changed; every remembered poll time has its card. |
| PollPool.SeriesAreTheReportedOnes | internal/dashboard/poller.go:457-465 | After a finished cycle the labels are those of the series reported in it, and the stale ones of the cycle before are unexported. |
| PollPool.ActionKeepsDataInv | internal/dashboard/poller.go:879-1000 | Each action a task can take on the shared state keeps the cycle's invariant, wherever the other tasks stand. |
| PollRefresh.MergeFindsItsCard | internal/dashboard/poller.go:1012-1050 | In every run a merge finds a stored card, if its key has one due check; what else is stored under the key does not matter. |
| PollRefresh.StoryOfTurnedDown | internal/dashboard/poller.go:1012-1050 | The story of a key that was not due: its merge reads once and writes once what it read, refreshed; all other stores are of rivals, and every rival stores; the card at the end is the one stored last. |
| PollRefresh.SkippedKeepsItsCard | internal/dashboard/poller.go:879-884 | Without rivals the card at the end is the old one, refreshed by the monitor, in every run. |
| PollRefresh.RivalsAgainstMerge | internal/dashboard/poller.go:1434-1461 | With rivals: if all stored their cards between the read and the write of the merge the old card comes back refreshed; otherwise the page shows a rival, possibly refreshed. |
| PollRefresh.SurvivesIffInBetween | internal/dashboard/poller.go:1012-1050 | If no rival looks like the old card, it survives if and only if every rival is stored between the read and the write. |
| PollRefresh.RefreshKeeps | internal/dashboard/poller.go:1036-1049 | A merge overwrites the monitor's fields and hideErrors with those of the check (and the time of the update, which `Card` does not have) and keeps every other field; it keeps the error if and only if the monitor has none, errors are hidden, or the two are equal, and else shows the monitor's. |
| PollRefresh.ErrorOutlivesItsCause | internal/dashboard/poller.go:1046-1048 | An error of the monitor replaces the widget's, and the next merge does not clear it although the monitor has recovered. |
| PollRefresh.ErrorWitness | internal/dashboard/poller.go:1046-1048 | One input for which both happen. |
| PollOutcome.CardsAreBuilt | internal/dashboard/poller.go:208-355 | After a finished cycle, in every interleaving, each card not turned down is one that a task of this cycle built for its key. |
| PollOutcome.AskedKeyIsDecided | internal/dashboard/poller.go:384-409 | A key asked about once is turned down if and only if it is not due by the poll time remembered before the cycle, its override, the interval and one clock reading of the cycle; the new poll time follows. |
| PollKeys.KeysClash | internal/dashboard/poller.go:266-344 | Two cards have the same key if and only if they are the same, or one is a discovered HTTPRoute that looks like a card of the other's ServiceCard. |
| PollKeys.KeysRead | internal/dashboard/poller.go:266-344 | The five kinds of keys, as text. |
| PollCycle.MainIsSound | internal/dashboard/poller.go:246-349 | Whatever objects there are, the cycle marks exactly the keys its tasks may write. |
| PollCycle.MainMarks | internal/dashboard/poller.go:246-349 | It marks a key if and only if its card should be shown, and reports a series if and only if a monitor did. |
| PollCycle.DuesAreWidgets | internal/dashboard/poller.go:879-884 | A cycle asks duePoll about exactly its widgets and header widgets, each under its own key, with its own override, and with the card its own poll came to. |
| PollCycle.EveryKeyHasOneDue | internal/dashboard/poller.go:279-284 | No key is asked about twice in a cycle. |
| PollCycle.PolledKeysHaveOneWriter | internal/dashboard/poller.go:279-284 | The key of a polled widget has one writer in a cycle, unless a discovered HTTPRoute takes it. |
| PollCycle.RivalsAreDiscovered | internal/dashboard/poller.go:301-322 | The other cards that can be stored under such a key are exactly the discovered services with that key. |
| PollHistory.EveryBoundary | internal/dashboard/poller.go:235-245 | Between any two cycles, finished or cut short, every widget with a remembered poll time has a stored card. |
| PollHistory.StoreShowsWhatItShould | internal/dashboard/poller.go:187-355 | After a finished cycle a card is stored if and only if it should be shown, whatever was stored before and in whatever order the tasks ran. |
| PollHistory.CardsAreExpected | internal/dashboard/poller.go:246-349 | After a finished cycle of any history every card not turned down is what one of the found objects came to under that key, whatever was stored before. |
| PollHistory.PolledShowsItsOwn | internal/dashboard/poller.go:879-1000 | In every history, a widget or header widget without a route on its key is turned down if and only if it has a positive interval of its own, was polled before, and at the clock reading not both that and the poller's interval have gone by; otherwise the cycle leaves exactly the card its own poll came to, and remembers the time. |
| PollHistory.MonitorShowsItsOwn | internal/dashboard/poller.go:264-274 | An entry with a monitor and no widgets shows exactly what its own check came to. |
| PollHistory.DiscoveredShowsItsOwn | internal/dashboard/poller.go:301-322 | So does a discovered service, in a Dashboard outside a namespace called "discovery". |
| PollHistory.NotDueKeepsItsContent | internal/dashboard/poller.go:879-884 | In every history, a widget turned down as not due keeps its card, refreshed with exactly its entry's monitor result; a header widget keeps it unchanged; unless a discovered HTTPRoute has the key. |
| PollHistory.NotDueAgainstRoute | internal/dashboard/discovery.go:259-259 | With such a route: the widget's card comes back, refreshed, if all routes were stored between the read and the write of its merge, and otherwise the page shows a route; if no route looks like the card, it survives exactly then. |
| PollHistory.MergesFindTheirCards | internal/dashboard/poller.go:1012-1050 | In every history, at every point of every cycle, for all well-named objects, a task about to merge finds a stored card. |
| PollWitness.OrderDecides | internal/dashboard/poller.go:1018-1049 | Two histories with the same objects, one in which the widget survives the route with its monitor's error in place of its own, and one in which the route takes its place; the second cycle comes twenty seconds after the first, before the widget's sixty are over. |
| PollHistory.ExportedIsProbed | internal/dashboard/poller.go:457-465 | At every boundary the exported series are those the last full cycle's monitors reported, and besides exactly those ever reported under a label with a unit separator. |
| PollerState.LabelKeyReadsBack | internal/dashboard/poller.go:475-482 | A metric label key splits back if and only if the label has no unit separator. |
| PollerState.SeparatorWitness | internal/dashboard/poller.go:457-482 | For an entry name with a separator in it, the prune unexports a series that does not exist and leaves the entry's own. |
| PollerState.StaleIsDropped | internal/dashboard/poller.go:457-465 | Pruning unexports exactly the series that were not recorded again and whose label has no separator. |
| PollerState.ExportedSeries | internal/dashboard/poller.go:457-465 | The same over every run of completed and aborted cycles. |
| PollerState.AcceptedExactlyAtDeadline | internal/dashboard/poller.go:384-409 | A call about a kept key is told to poll if and only if the override, in seconds, and the poll interval have both gone by since the last poll, or it is the first. |
| PollerState.PollsAreSpaced | internal/dashboard/poller.go:384-409 | Any two polls of a kept key are at least the override and at least the poll interval apart. |
| PollerState.WarnedAtMostOnce | internal/dashboard/poller.go:384-409 | The clamp warning comes with the first call, if the override is too short, and with no other. |
| PollerState.Poller.DuePoll | internal/dashboard/poller.go:384-409 | The verdict, the warning and the new memory, from two clock readings. |
| PollerState.Poller.PruneWidgetLastPolled | internal/dashboard/poller.go:414-427 | Both tables keep exactly the kept keys. |
| PollerState.Poller.PruneMonitorMetrics | internal/dashboard/poller.go:457-465 | Exactly the series decoded from stale keys are unexported, and the current keys become the remembered ones. |
| PollerState.ReportAndPrune | internal/dashboard/poller.go:457-465 | A whole cycle's reports and the prune, on the poller's own tables. |
| Store.Store.Prune | internal/dashboard/store.go:82-90 | What is left is the old cards with kept keys, unchanged. |
| Store.Store.Snapshot | internal/dashboard/store.go:95-117 | Every stored card once, in display order. |
| Store.SnapshotIsUnique | internal/dashboard/store.go:95-117 | There is only one such sequence, so the snapshot does not depend on the map's iteration order. |
| Store.SnapshotReadsInOrder | internal/dashboard/store.go:95-117 | By group; inside a group the cards with an order first, in that order; then by service name; then by key, without repeats. |
| Store.CompareCardsConsistent | internal/dashboard/store.go:103-115 | The display order is a total preorder. |
| Display.HeaderWidgets | internal/dashboard/site.go:283-301 | Exactly the entries of the InfoWidgets that name this Dashboard, or name none where it is the only one, in display order. |
| Display.HeadersAreTheBoundEntries | internal/dashboard/site.go:283-301 | An element is in the strip if and only if it is an entry, with its index, order and configuration, of an InfoWidget that names this Dashboard, or names none where it is the only one; once, if object names are unique. |
| Display.HeadersReadInOrder | internal/dashboard/site.go:293-301 | Header widgets with an order first, in that order; then by object name, then by index. |
| Display.HeaderOrderIsCanonical | internal/dashboard/site.go:283-301 | The header strip is the same for every order of the API server's list. |
| Display.GroupBookmarks | internal/dashboard/site.go:585-622 | The groups have distinct names, stand in order of least Order (unset last) then name, and hold exactly their own entries, at least one, sorted. |
| Display.GroupsReadInOrder | internal/dashboard/site.go:607-612 | Groups with an order first, in the order of their least entries, each of which is written out; then strictly by name. |
| Display.EntriesReadInOrder | internal/dashboard/site.go:614-622 | Inside a group the entries with an order first, in that order; then by name. |
| Display.GroupsPartition | internal/dashboard/site.go:585-622 | Every bound entry is shown exactly as often as it is bound. |
| Display.GroupsAreTheBoundEntries | internal/dashboard/site.go:585-622 | Seen from the Bookmarks: a group holds exactly the entries of that group in the Bookmarks that name this Dashboard, or name none where it is the only one, each as often as they list it, and no such entry is without its group. |
| Display.GroupingIsCanonical | internal/dashboard/site.go:585-622 | For every order of the list the same groups stand in the same places with the same entries; they are equal if no two different entries of a group share order and name. |
| Display.PageIsDeterminedIff | internal/dashboard/site.go:585-622 | There is only one grouping of the entries if and only if no two different entries of a group share order and name. |
| Broadcaster.Broadcaster.Subscribe | internal/dashboard/sse.go:45-54 | A new empty channel, refused if and only if there are already 256 subscribers. |
| Broadcaster.Broadcaster.Unsubscribe | internal/dashboard/sse.go:58-62 | The channel gets nothing more; every other is unaffected. |
| Broadcaster.Broadcaster.HasSubscribers | internal/dashboard/sse.go:69-73 | True if and only if somebody is subscribed. |
| Broadcaster.Broadcaster.Offer | internal/dashboard/sse.go:82-94 | Whatever receivers do between the selects, the channel ends up to date and the innermost default is never taken. |
| Broadcaster.Broadcaster.Publish | internal/dashboard/sse.go:78-96 | When it returns every subscriber has the new value or has it waiting, no channel forgot or reordered anything, and others got nothing. |
| Broadcaster.Session | internal/dashboard/sse.go:45-96 | In any session, a cycle publishes exactly if somebody is subscribed then; at the end everyone who was subscribed at the last publication has it or has it waiting; and what a client received is a strictly increasing selection of the publications. |
| FailureLog.PollFailureLog.LogPollFailure | internal/dashboard/pollfailure.go:41-59 | When a line is written and what is remembered; never more than 256 targets. |
| FailureLog.PollFailureLog.ClearPollFailure | internal/dashboard/pollfailure.go:65-69 | Only the target is forgotten. |
| FailureLog.MemoryIsPartOfIdeal | internal/dashboard/pollfailure.go:41-69 | Over every run the memory is a part of an unbounded log's and holds at most 256 targets. |
| FailureLog.NoLineIsLost | internal/dashboard/pollfailure.go:41-69 | Every line an unbounded log writes is written; a line only the bounded one writes is about a target it had forgotten. |
| FailureLog.LinesAreSafeIffReasonGiven | internal/dashboard/pollfailure.go:41-59 | A line is safe from being lost if and only if its reason is not empty. |
| FailureLog.FewTargetsLogIdeally | internal/dashboard/pollfailure.go:41-69 | With fewer than 256 targets the two logs are the same. |
| FailureLog.ChangedCauseIsLogged | internal/dashboard/pollfailure.go:41-59 | A target that fails with the same message is logged again if the cause has changed, whatever happened to others in between; without a bound, only then. |
| FailureLog.BreakingAgainIsLogged | internal/dashboard/pollfailure.go:41-69 | A target that fails for the first time, or again after a recovery, is logged, even if it fails the same way. |
| Ordering.SortedPermutationIsUnique | internal/dashboard/store.go:103-115 | A comparison that separates the elements leaves sorting no choice. |
| Ordering.CompareIsLexicographic | internal/dashboard/store.go:103-115 | A text comes before another if and only if it is a proper prefix of it, or has the smaller character at the first place where they differ. |
| Ordering.SortCompact | internal/controller/dashboard_rbac.go:861-867 | Sorting and compacting gives a strictly sorted list of the same members. |
| Text.CutUndoesGlue | internal/dashboard/poller.go:479-482 | Cutting at a separator undoes gluing if and only if the first part has none. |
| Text.SplitUndoesJoin | internal/controller/dashboard_network.go:44-59 | Splitting undoes joining for parts without the separator. |

## Left out

- GrantProtocol: two leaders at once, an outsider editing the tracked status, the finalizer or the bindings, a cache that goes back in time after a restart, and a timed-out call that takes effect later than the next call.
- GrantProtocol: the ServiceAccount, Role and RoleBinding in the own namespace and everything after the RBAC steps are steps of one call each that may fail; they carry owner references and are garbage collected.
- GrantReconcile: reads answer from the cluster itself; the lagging reads are in GrantProtocol, and GrantSettling shows the same outcome there.
- GrantProtocol: models one Dashboard alone; another one that shares its RBAC names (`RbacNames.ClashWitness`) would have its RoleBindings deleted with this one's, and delete them.
- RbacNames: SHA-256 is an unknown function with results of fixed length; no absence of collisions is claimed.
- Strings are ASCII, so that characters stand for bytes.
- WatchDrain: the delays of the rate limiter, which keep a reconcile refused for a stale read from being retried at once.
- WatchCoverage: a failed list inside the mapping function, and the freshness of a Dashboard's own bound counts, which no watch covers.
- SecretGrants: preview and sample mode, in which fewer Secrets are read.
- SecretGrants: a Secret the Role does not allow and one that does not exist differ only in the text of the error; other API errors, and configuration that changes between the controller's and the pod's look.
- PollPool: what a poll returns is arbitrary; transports, TLS clients and their cache with its prune, highlighting and sample data are not part of this model.
- PollPool: setting a gauge and recording its label is one step; no other task uses either.
- PollPool: a task that panics.
- PollerState: the 64-bit width of durations; a 32-bit number of seconds fits.
- Broadcaster: the SSE handler and its timeouts, and a client that comes or goes between HasSubscribers and Publish.
- Display: icons, layout tabs and the styling of groups (layoutGroupsByName), which do not change which entries are shown where.
- Conditions' messages and their transition times; `mergeOverride` and `deploymentTemplateChanged`.
- Login, rendering, generated code and the command line.
