# The Datafuse operator's two controllers, modelled and proved

This project models, in Dafny, the two controllers of the Datafuse operator and the text codec that joins them.

**Registration.** A controller watches the pods of compute groups and keeps the node list of every ready leader equal to
"all ready followers and the leader itself". It takes pod snapshots off a rate-limited queue and, by readiness and role,
recomputes a leader's list or sends one add or remove to every ready leader. `nodes.dfy` holds the lists and a network that
delivers a request, carries it out without an answer, or loses it; `store.dfy` the informer's cache, one version for each
read; `workqueue.dfy` the queue; `register.dfy` the controller, in the imperative form of the source, each method proved
against the request trace it may leave. `leader.dfy` proves what one full pass achieves, `membership.dfy` what whole runs
keep, `history.dfy` what holds after any run whatever.

**Reconciliation.** The other controller turns a compute group into owned deployments and one service, prunes names that
left the spec and heals deployments that vanished. `apis.dfy` is the API server: maps of deployments, services and groups, a
history of the calls made, a fate for each call and a lag for each cached lookup. `sync.dfy` gives `syncComputeGroup` as a
machine of single calls and proves what a sync comes to when calls succeed, `outcomes.dfy` what it does whatever becomes of
them; `reconcile.dfy`, `pruning.dfy` and `healing.dfy` do the same for whole groups; `sets.dfy` and `rounds.dfy` tell from a
group's spec and status alone what is deployed, recorded and deleted when it is taken off the queue; `interleaving.dfy` and `confluence.dfy` for any number of syncs at once; `parents.dfy` for the operator
resource above the groups. `operator.dfy` has the controller's methods over heap objects, each proved to do what these
functions say, and `objects.dfy` the deep copies they edit.

**Codec.** `pods.dfy` prints a set spec into a pod's environment and reads it back; `text.dfy` has decimal printing and
parsing, `SplitN` and the two key formats; `naming.dfy` and `deploy.dfy` the names, labels and owners of deployments.

Conventions. An `Option` is a pointer, slice or map that may be nil. `Calm` says that from some call on every call arrives,
every answer comes back and every lookup is current; results without it hold for every fate and every lag. The server may
still refuse a call: creating needs a free name, and a group or operator is written only at the version it was read at. A
`Task` is one call of `syncComputeGroup`: a group, one of its sets, the deployment name chosen for it, and whether it is the
leader set. Where the code visits a Go map, the order is any order, returned as a ghost result.

Some properties one might expect are false of the code. Each has its exact condition and an instance:

- a follower deleted while it is ready goes on being listed, and a snapshot retried after its follower went or changed is
  announced as it was, until the next pass over the leader (`Membership.LeaderRightIff`,
  `Membership.DeletedReadyFollowerStays`, `Membership.OutdatedRetryStays`, `Membership.RunRepairsLeader`);
- a pass over a list that names a pod twice can lose that pod (`LeaderPass.PassLinearises`, `LeaderPass.DuplicatesCanMiss`);
- a group's service can miss the pods of its leader set after the group's operator label changed
  (`Interleaving.ServicesSelectTheirLeaders`, `Interleaving.RelabelledGroupIsNotSelected`);
- an operator's second sync of a group whose spec names no namespace fails (`Parents.ResyncIff`,
  `Parents.ResyncFailsWithoutNamespace`); this is about `syncGroup2` and a server that does not default the field, as the
  shipped CRD does (manifests/crds/datafuse.datafuselabs.io_datafuseoperators.yaml:140-141), an empty field being omitted
  when an operator is written back.

Ownership is proved for environments that delete no deployment, and `Interleaving.StaleSyncTakesOver` shows that this is
needed. Status does not accumulate: `Reconcile.FirstWriteStands` and `Healing.PrunedRecordStands` say which write stands.

Preconditions. Instance specs have the pointers set that the pod builder dereferences; group objects have their leader set,
and for the pruning handler the pointers to the sets are all that is asked; stored objects are under their own keys, groups
with a namespace, and stored deployments have a replica count, which the API server defaults; recorded ready keys contain a
slash. The code panics otherwise. Over runs, pods carry both labels and the environments the operator made, and roles are
fixed; addresses may come late and change, but leaders that are ready at the same time have different ones, each with a
server behind it that answers. Requests to anybody else, such as a leader that went away together with its server, may be
lost. A snapshot that failed may be retried at any time, however old it is by then; that of a ready leader only if no other
ready leader has its address.

## Model

| member | source | states |
|---|---|---|
| Membership.StepSyncedIff | pkg/controllers/register/register_controller.go:157-184 | One pod event or retry handled to the end, the leaders that are ready by then answering, from a state in which every ready leader lists exactly the ready followers and itself: the next state is again such a state if and only if no leader is ready, or the event neither deleted a follower that was still ready nor retried a follower snapshot whose readiness is outdated |
| Membership.RunStaysSynced | pkg/controllers/register/register_controller.go:157-184 | The same over runs of any length: without such a deletion or retry, every ready leader's name set is its own key plus the keys of all ready followers at every point |
| Membership.LeaderRightIff | pkg/controllers/register/register_controller.go:157-184 | The same leader by leader and from any state: a leader whose list is right, or whose pod is reported as ready or retried at its address, has the right list afterwards if and only if the event is neither of the two |
| Membership.RunRepairsLeader | pkg/controllers/register/register_controller.go:260-304 | Recovery: from any lists whatever, as lost requests may have left them, once a leader has been reported or its failed handling retried, its list is right at every later point at which it is ready, as long as neither of the two happens from then on |
| Membership.DeletedReadyFollowerStays | pkg/controllers/register/register_controller.go:79-82 | The first exception happens: for any group and complete spec, a ready follower the reconciler deployed and somebody deleted is handled from its last snapshot as ready, and the leader goes on listing it |
| Membership.OutdatedRetryStays | pkg/controllers/register/register_controller.go:132-134 | So does the second: for any group and complete spec, a deployed leader lists a follower that is gone once the failed snapshot of it as ready is retried |
| Membership.RecomputeAgrees | pkg/controllers/register/register_controller.go:260-304 | On such a state the full recompute of a leader changes no name, and on a duplicate-free list sends nothing but its read: the incremental form agrees with it |
| Membership.ProcessingIsAStep | pkg/controllers/register/register_controller.go:157-184 | What the controller's processing of a pod sends, reads and answers, in a store that does not change meanwhile and with its ready leaders answering, is a step of these runs |
| LeaderPass.FailureNeverMovesAway | pkg/controllers/register/register_controller.go:251-303 | For every pattern of lost or unacknowledged requests, a pass over an unchanging store that holds the leader removes no desired name, adds no undesired one, and never enlarges the symmetric difference with the desired names |
| LeaderPass.SuccessReachesDesired | pkg/controllers/register/register_controller.go:228-304 | If such a pass reports success, every desired name is listed, and an extra name is a key no pod has any more, each of whose silent removals was lost |
| LeaderPass.PassLinearises | pkg/controllers/register/register_controller.go:228-304 | With all requests delivered and the store changing between the reads, the list ends at the desired set of the second read if and only if no desired name was looked up both with and without success; the pass reports success either way |
| LeaderPass.UniqueListsNeverSplit | pkg/controllers/register/register_controller.go:237-250 | A duplicate-free list is never looked up both ways, so the pass over it always ends at the desired set of its second read |
| LeaderPass.DuplicatesCanMiss | pkg/controllers/register/register_controller.go:237-252 | The exception happens: a list naming a ready follower twice, the pod entering the store between the two lookups; the pass reports success and leaves the leader alone on its list |
| LeaderPass.PassIsMinimal | pkg/controllers/register/register_controller.go:271-303 | For a duplicate-free list, the adds and removes sent, stale removals included, are the two halves of the symmetric difference, one request for each name |
| LeaderPass.SecondPassOnlyReads | pkg/controllers/register/register_controller.go:228-303 | After a delivered pass over a duplicate-free list, a second pass over the store of the first one's last read sends its read and nothing else, and succeeds |
| History.HistoryInvariant | pkg/controllers/register/register_controller.go:209-225 | After any run whatever from empty lists, stale snapshots and lost requests included, no list names anything twice and each name on it is a follower once seen ready or the leader living there |
| History.NoLeaderListsAnother | pkg/controllers/register/register_controller.go:269-281 | So a key never seen as a ready follower is on no list but its own: no leader lists another |
| WorkQueues.FiftyAttempts | pkg/controllers/register/register_controller.go:121-145 | In every interleaving of the queue's steps, an item enqueued once from fresh is processed at most fifty times; until it succeeds or has failed fifty times it is pending in exactly one place, its count one more than its failures, and after that it is gone; no run has more than 150 steps of it |
| WorkQueues.PendingCanStep | pkg/controllers/register/register_controller.go:132-134 | A pending item always has a next step, so retrying cannot get stuck |
| WorkQueues.PermanentFailure | pkg/controllers/register/register_controller.go:136-139 | An item that always fails is gone if and only if it was processed fifty times |
| WorkQueues.EnqueuedIsPending | pkg/controllers/register/register_controller.go:70-84 | An enqueued item is waiting with one more on its count, in that one place if it was in none, and no other item is affected |
| Register.RegisterController.Observe | pkg/controllers/register/register_controller.go:70-84 | Every informer event, deletions included, enqueues the pod snapshot rate-limited |
| Register.RegisterController.ProcessNextItem | pkg/controllers/register/register_controller.go:121-187 | One round: exactly one item is taken, processed, then either forgotten or requeued by the retry rule, then done, in this order; its log, lists and answer are those of the handling its readiness and role ask for |
| Register.RegisterController.ProcessPod | pkg/controllers/register/register_controller.go:157-184 | The four cases by readiness and role: a full pass, an error without requests, a fan-out of adds or removes, or nothing |
| Sending.HandlingAnswers | pkg/controllers/register/register_controller.go:157-184 | What is retried: a leader that is not ready always fails; a follower's handling succeeds if and only if it has its group label and every ready leader could be addressed and answered; a pod of another role never fails |
| Register.RegisterController.ProcessLeader | pkg/controllers/register/register_controller.go:260-304 | The requests sent and the answer form one pass over the list read at the start, its lookups and its second read, each at its own store version |
| Register.RegisterController.UpdateLeader | pkg/controllers/register/register_controller.go:269-303 | Second half of a pass: only missing desired pods are added and only undesired existing ones removed, all of them on success, and it fails only at a lost answer, after which nothing is sent, or an unreadable pod |
| Register.RegisterController.SendUpdates | pkg/controllers/register/register_controller.go:291-302 | The adds and then the removes go out to the leader in order, all of them on success; nothing follows the first that is not answered or cannot be made |
| Register.RegisterController.Compare | pkg/controllers/register/register_controller.go:272-289 | What is to be added is the desired pods not listed, in order; what is to be removed enumerates the listed pods that are not desired |
| Register.RegisterController.ListExistedWorkers | pkg/controllers/register/register_controller.go:228-257 | The list is read once, each entry looked up at its own store version, each entry without a pod removed whatever the answers, and the pods found returned by key |
| Register.RegisterController.LookUp | pkg/controllers/register/register_controller.go:235-250 | Entries without a pod, in list order, and the pods found by entry name |
| Register.RegisterController.RemoveStale | pkg/controllers/register/register_controller.go:251-253 | Exactly one removal for each stale entry, errors dropped |
| Register.RegisterController.GetClusterList | pkg/controllers/register/register.go:234-252 | One read request; the list on an answer, None otherwise |
| Register.RegisterController.ListReadyLeaders | pkg/controllers/register/register_controller.go:190-206 | Each ready leader of the store once, of whatever group |
| Register.RegisterController.ListReadyWorkers | pkg/controllers/register/register_controller.go:209-225 | Each ready follower of the store once, of whatever group |
| Register.RegisterController.ProcessReadyWorker | pkg/controllers/register/register_controller.go:325-341 | An add of the pod goes to the ready leaders one after the other, one request each, nothing after the first that is not answered, and to all of them on success; it fails only at a lost answer, an unreadable pod or a missing group label |
| Register.RegisterController.ProcessUnreadyWorker | pkg/controllers/register/register_controller.go:306-323 | A removal of the pod goes to them in the same way |
| Register.RegisterController.AddNode | pkg/controllers/register/register.go:112-140 | One add at the leader's ip:httpPort naming "ns/name", ip:rpcPort and the priority, or no request and an error if either environment cannot be read |
| Register.RegisterController.RemoveNode | pkg/controllers/register/register.go:146-163 | The same for a removal |
| Register.RegisterController.RemoveConfig | pkg/controllers/register/register.go:165-180 | One removal of the given entry at the leader's address, or no request and an error |
| Nodes.NodeServer.HandleAdd | pkg/controllers/register/register_test_utils.go:65-79 | The new node goes to the end unless one of its name is listed; an entry is never refreshed |
| Nodes.NodeServer.HandleRemove | pkg/controllers/register/register_test_utils.go:80-95 | All nodes of the name go, the others keep their order |
| Nodes.WithoutJoins | pkg/controllers/register/register_test_utils.go:80-95 | A removal takes entries out where they stand: it can be done part by part |
| Nodes.Network.Post | pkg/controllers/register/register.go:85-106 | A request is logged with its fate, changes the one list it is addressed to unless it is lost, and counts as a success when an answer comes back |
| Nodes.Network.Get | pkg/controllers/register/register.go:182-195 | A read changes no list and yields the list held at the address when it is answered |
| Membership.GroupExactIff | pkg/controllers/register/register_controller.go:190-225 | A remark on the listers, which ignore their group key: a leader's desired names are those of its own group if and only if every ready follower anywhere carries the leader's group label |
| Pods.EnvRoundTrip | pkg/controllers/utils/operator_utils.go:109-148 | For every instance spec with all pointers set, the parser reads the printed environment back to the decimal ports, and Atoi gives the original priority |
| Pods.RegistrationRoundTrip | pkg/controllers/utils/operator_utils.go:216-236 | The same of a pod made by itself: announced as "ns/name" at "ip:rpcPort" with the spec's priority, reached at "ip:httpPort", told by its role label |
| Pods.BuildPodConfig | pkg/controllers/register/register.go:198-231 | The loop with its early exits computes the parse of the environment list |
| Pods.ParseSucceedsIff | pkg/controllers/register/register.go:200-229 | It succeeds if and only if no occurrence of the three address variables lacks a colon |
| Pods.LastEntryWins | pkg/controllers/register/register.go:200-229 | Each field comes from the last entry of its name, or is empty when there is none |
| Pods.OrderDoesNotMatter | pkg/controllers/register/register.go:200-229 | For a list with distinct names, success and result are the same for every permutation of it |
| Deploy.WantedRegisters | pkg/controllers/utils/operator_utils.go:255-297 | The codec joins the controllers: a pod of what the reconciler deploys for a set, whatever its name, address and readiness, is announced as "ns/name" at "ip:rpcPort" with the spec's priority, reached at "ip:httpPort", told by its role, selected by its deployment, and runs the set's image |
| Text.AtoiItoa | pkg/controllers/register/register.go:123-126 | Reading a printed 64-bit integer back gives that integer |
| Sync.SyncSettles | pkg/controllers/operator/operator_controller.go:453-509 | A sync whose calls arrive and whose lookups are current, run call by call, ends exactly where a closed description per object says, and succeeds if and only if the group has its keys, its object is stored at the snapshot's version and no other owner holds the deployment name; the service is created before ownership is checked, and only replicas are reconciled on an existing deployment |
| Outcomes.SyncStopsAtFailure | pkg/controllers/operator/operator_controller.go:453-509 | For every fate of the calls and every lag: a sync makes no call after a write that did not go through, and succeeds if and only if the last thing it did was a status write that went through; it makes no call at all if and only if the group lacks its name or namespace |
| Reconcile.NewGroupExact | pkg/controllers/operator/operator_controller.go:428-451 | Sets with distinct names: each set's deployment is settled from what was under its name and ends controlled by the group with the requested replicas if and only if no other owner held the name; the group's service exists; every other deployment, service and group object is unchanged |
| Sets.SetsAreDeployed | pkg/controllers/operator/operator_controller.go:428-500 | Told from the spec alone: under the name a set has in the spec, or its default name, stands a deployment; one that another owner holds or that has the replicas asked for is left as it was, any other is built with the group as its one owner, the set's replicas, labels, image and registration; the group controls it unless another owner held the name |
| Sets.OtherNamesAreKept | pkg/controllers/operator/operator_controller.go:428-451 | A deployment in another namespace or under a name no set has stays as it was |
| Sets.ServiceIsMade | pkg/controllers/operator/operator_controller.go:474-485 | A missing service is made under the group's name, owned by the group and selecting the pods of its leader set; existing services stay |
| Deploy.WantedServiceSelects | pkg/controllers/utils/operator_utils.go:238-251 | A leader set's service has the group's name and owner and selects exactly by the labels of the set's pods |
| Sets.RecordGainsSet | pkg/controllers/operator/operator_controller.go:511-531 | When calls succeed and the i-th set's write is the first to change anything, exactly "ns/name" of that set goes on record as READY, with the leaders for the leader set and with the workers otherwise, a leader set making the group Ready, and from then on that key is missing if and only if that deployment is |
| Sets.EveryWriteRecordsASet | pkg/controllers/operator/operator_controller.go:511-531 | For every fate and lag, each status write of a reconciliation carries the group as passed in with "ns/name" of one of its sets put on record in this way and nothing else changed |
| Reconcile.SecondRunIsQuiet | pkg/controllers/operator/operator_controller.go:428-509 | A second run makes no call but lookups and status writes and leaves deployments and services as they are |
| Reconcile.FirstWriteStands | pkg/controllers/operator/operator_controller.go:511-531 | Every status write of one reconciliation carries the version of the same snapshot, so the server takes the first write that changes anything and refuses the later ones: the record gains one of the sets synced |
| Reconcile.NoWriteStands | pkg/controllers/operator/operator_controller.go:511-531 | When no write would change the record, or the snapshot is older than the stored group, all group objects stay as they are |
| Pruning.PruneThenSync | pkg/controllers/operator/operator_controller.go:168-202 | Pruning and then reconciling settles each set of the new spec from what was under its name before the pruning |
| Pruning.PruneSparesOthers | pkg/controllers/operator/operator_controller.go:193-201 | Of all other deployments, exactly those the old spec named are gone |
| Pruning.PruneLeavesExactlyNew | pkg/controllers/operator/operator_controller.go:168-202 | From exactly the old spec's deployments, all the group's, exactly the new spec's are left, each controlled by the group with the requested replicas |
| Pruning.PruneKeepsTheRest | pkg/controllers/operator/operator_controller.go:168-202 | Pruning and reconciling touches no service but the group's, made if it is missing, and no group object but the group's own |
| Pruning.DeletesNothingElse | pkg/controllers/operator/operator_controller.go:193-201 | Whatever becomes of the calls, the handler touches no deployment but those under the dropped names |
| Sets.HandlerDeletesIff | pkg/controllers/operator/operator_controller.go:168-202 | Told from the specs alone: a deployment's deletion is asked for if and only if it is in the old group's namespace under a name the old spec gives to a set, explicitly or by default, and the new spec to none |
| Pruning.DeletesInOrder | pkg/controllers/operator/operator_controller.go:193-201 | It sends one deletion for each dropped name whatever the answers |
| Naming.BuildNamedSpec | pkg/controllers/operator/operator_controller.go:169-184 | The pruning handler's loop builds the sets of the reconciler's syncs by name, a later set hiding an earlier one of its name |
| Naming.ByNameNames | pkg/controllers/operator/operator_controller.go:430-448 | So the handler and the reconciler name exactly the same deployments, for every group |
| Naming.DefaultNamesDistinct | pkg/controllers/operator/operator_controller.go:438-444 | The default names of a leader set and any number of worker sets are pairwise distinct |
| Healing.WriteStrikesVanished | pkg/controllers/operator/operator_controller.go:550-569 | The status write drops exactly the recorded keys whose deployments are gone, sets Pending exactly when there is one, and keeps all else of the group |
| Healing.WriteComesFirst | pkg/controllers/operator/operator_controller.go:551-569 | It comes right after one lookup for each recorded key and before any sync |
| Healing.VanishedAreHealed | pkg/controllers/operator/operator_controller.go:545-572 | When calls succeed and a recorded key names a set, its deployment, if it had vanished, exists again under the group's control; if it had not, it is so unless another owner holds it |
| Healing.PrunedRecordStands | pkg/controllers/operator/operator_controller.go:550-572 | A pruned record that differs from the stored one stands: the syncs that follow start from the unpruned group, whose version is gone, so what they heal is not recorded again |
| Rounds.RecordsAreCheckedFirst | pkg/controllers/operator/operator_controller.go:417-423 | A queued group whose status is empty or Created is reconciled as a created one; one with another status and nothing on record is reconciled as it is; one with a record is first looked up key by key, leaders then workers, and its record written, before any sync |
| Rounds.RoundStrikesVanished | pkg/controllers/operator/operator_controller.go:545-569 | When calls succeed, the write that a queued group's round makes has lost exactly the keys whose deployments are gone and is Pending exactly when there is one |
| Rounds.RoundDeploys | pkg/controllers/operator/operator_controller.go:417-451 | When calls succeed, a queued group's round leaves each of its sets deployed as told from its spec, whatever its status and record |
| Rounds.VanishedAreBuilt | pkg/controllers/operator/operator_controller.go:545-572 | So a set whose recorded deployment vanished has one built for it again after the round, and its key is missing no more |
| Rounds.SyncsWriteTheWholeRecord | pkg/controllers/operator/operator_controller.go:550-572 | For every fate and lag, the status writes after the pruned one start from the whole record the group came with, vanished keys included |
| Sets.RecordStandsForDeployment | pkg/controllers/operator/operator_controller.go:552-553 | For a namespace without a slash, a recorded "ns/name" is looked up as just that deployment |
| Healing.RecordSplits | pkg/controllers/operator/operator_controller.go:552-553 | A recorded "ns/name" key splits back into the namespace and name of the set's deployment |
| Interleaving.OwnershipNeverChangesHands | pkg/controllers/operator/operator_controller.go:453-509 | Any number of syncs call by call in any interleaving, lookups as stale as they like, calls lost or unacknowledged, an environment that deletes and reassigns no deployment: the controller of an existing deployment is the same ever after |
| Interleaving.ForeignDeploymentsAreSpared | pkg/controllers/operator/operator_controller.go:487-497 | In all these states no call of a sync modifies a deployment its group does not control |
| Interleaving.StaleSyncTakesOver | pkg/controllers/operator/operator_controller.go:464-497 | The condition on deletions is needed: a sync that saw its own deployment before it was deleted overwrites the one another group has made since |
| Interleaving.ServicesSelectTheirLeaders | pkg/controllers/utils/operator_utils.go:238-287 | In every state the syncs of one namespace can build, deletions and changed groups included, a service selects a deployment's pods if and only if the deployment is a leader set controlled by the group the service is named after and was made under the service's operator label |
| Interleaving.RelabelledGroupIsNotSelected | pkg/controllers/operator/operator_controller.go:474-485 | The last condition fails when a group's operator label changes and its leader set is made anew: the service found is left as it was and does not select the new leader's pods |
| Interleaving.TurnIsAStep | pkg/controllers/operator/operator_controller.go:464-507 | Each call the controller's methods make is a step of this machine, its lookup answered from a state as old as the cache lags |
| Confluence.OrderDoesNotMatter | pkg/controllers/operator/operator_controller.go:428-509 | Syncs that want different deployments and services, lookups current: every order in which their calls can go through ends in the deployments and services that running them one after the other leaves |
| Confluence.SchedulesEnd | pkg/controllers/operator/operator_controller.go:453-509 | Every such order ends, after at most six calls a sync |
| Confluence.SeparateGroupsAreDisjoint | pkg/controllers/operator/operator_controller.go:436-449 | The syncs of any number of different groups with disjoint deployment names meet the condition of that result |
| Operator.OperatorController.SyncComputeGroup | pkg/controllers/operator/operator_controller.go:453-509 | The state of the API server and the answer are those of the call-by-call sync, for every fate of the calls and every lag of the caches: no call after a failed write, and success exactly after a status write that went through |
| Operator.OperatorController.FindOrCreateDeployment | pkg/controllers/operator/operator_controller.go:464-472 | Lookup, creation when not found, failure when the creation fails |
| Operator.OperatorController.FindOrCreateService | pkg/controllers/operator/operator_controller.go:474-485 | The same for the service of a leader set |
| Operator.OperatorController.CheckDeployment | pkg/controllers/operator/operator_controller.go:487-500 | A foreign deployment is an error; one whose replicas differ from a requested count is replaced, and the sync goes on if and only if that went through |
| Operator.OperatorController.UpdateComputeGroupStatus | pkg/controllers/operator/operator_controller.go:511-531 | One status write carrying the group with "ns/name" of this deployment on record as READY and nothing else changed; the group passed in is unchanged |
| Operator.MarkStatus | pkg/controllers/operator/operator_controller.go:514-527 | The edit in place of a status copy, making a missing map: only the one key changes, and a leader set also sets Ready |
| Operator.MarkReady | pkg/controllers/operator/operator_controller.go:512-527 | The edit on a deep copy puts just "ns/name" of the deployment on record, in the leaders' or the workers' map |
| Operator.OperatorController.ProcessNewComputeGroup | pkg/controllers/operator/operator_controller.go:428-451 | All sets are synced in order, errors dropped, and success is reported; the group passed in is unchanged |
| Operator.OperatorController.HandleUnneededDeployments | pkg/controllers/operator/operator_controller.go:168-202 | Each name that a set of the old spec has and none of the new one is deleted once, in some order, answers dropped, and nothing else is |
| Operator.OperatorController.LookAndStrike | pkg/controllers/operator/operator_controller.go:551-557 | One lookup of the split key, and the key leaves the copy of the record exactly when it is not found |
| Operator.OperatorController.StrikeVanished | pkg/controllers/operator/operator_controller.go:551-557 | Each recorded key once, in some order; the copy of the map loses exactly those not found |
| Operator.OperatorController.StrikeGroup | pkg/controllers/operator/operator_controller.go:551-568 | Leaders, then workers; Pending when any is gone |
| Operator.OperatorController.WriteRecord | pkg/controllers/operator/operator_controller.go:550-569 | The pruned copy is sent, the answer dropped, the group itself unchanged |
| Operator.OperatorController.ProcessUpdatedComputeGroup | pkg/controllers/operator/operator_controller.go:545-572 | Reconciled at once when nothing is on record, else looked up, pruned and reconciled from the group as it was passed in; always reports success |
| Operator.OperatorController.ProcessGroup | pkg/controllers/operator/operator_controller.go:417-423 | A group without a status counts as created; created ones are reconciled, others have their recorded keys looked up first, each once |
| Operator.OperatorController.ProcessNextComputeGroup | pkg/controllers/operator/operator_controller.go:384-426 | One round of a group worker: taken, processed, forgotten and done, in this order; no item is ever retried |
| Operator.IsComputeGroupCreated | pkg/controllers/utils/operator_utils.go:51-57 | An empty status becomes Created, and the answer is whether the status is Created |
| WorkQueues.WorkQueue.HandleError | pkg/controllers/operator/operator_controller.go:385-401 | Forget a success, requeue a failure while its count is below fifty, forget it after that |
| Operator.OperatorController.SyncGroup2 | pkg/controllers/operator/operator_controller.go:337-366 | Lookup under the spec's namespace, creation under the defaulted one, a foreign group an error, then the operator's status write |
| Operator.OperatorController.UpdateOperatorStatus | pkg/controllers/operator/operator_controller.go:368-378 | One write carrying the operator as Ready with this group on record; the operator passed in is unchanged |
| Operator.OperatorController.ProcessNewOperator | pkg/controllers/operator/operator_controller.go:325-335 | The defaulted copy's groups are synced in order, errors dropped, and success is reported |
| Operator.OperatorController.ProcessNextOperator | pkg/controllers/operator/operator_controller.go:284-323 | One round of an operator worker: taken, its groups synced, forgotten and done, in this order; no item is ever retried |
| Parents.AdmittingIsDefaulting | pkg/controllers/utils/operator_utils.go:43-49 | Setting the empty status of an operator to Created does nothing that defaulting would not do: what is reconciled afterwards is the same |
| Parents.DefaultingCompletes | pkg/apis/datafuse/v1alpha1/defaults.go:7-23 | A defaulted operator has "default", "default-operator", an empty group list and "Created" where it had nothing, and all else as it was; the groups made for it are the operator's own; defaulting again changes nothing |
| Parents.SetDatafuseComputeGroupDefaults | pkg/apis/datafuse/v1alpha1/defaults.go:25-36 | A group its operator does not control gets the operator as its only owner, an empty namespace the default; with either nil nothing changes |
| Parents.GroupDefaultsOnlyFill | pkg/apis/datafuse/v1alpha1/defaults.go:25-36 | Defaulting sets the owners of a group its operator does not control to the operator alone and an empty namespace to "default", and changes nothing else |
| Parents.MakeComputeGroup | pkg/controllers/utils/operator_utils.go:300-312 | A new group with the spec's name and namespace, the operator's label and ownership, defaults applied, and the spec |
| Parents.SyncOnlyAdds | pkg/controllers/operator/operator_controller.go:337-347 | However stale the lookup and whatever becomes of the calls, an operator's sync adds at most the one group its spec asks for and changes no existing group, deployment or service |
| Parents.SyncGroupExact | pkg/controllers/operator/operator_controller.go:337-365 | When calls succeed it succeeds if and only if the lookup finds a group the operator controls, or finds none and the place of creation is free, and the operator is stored at the snapshot's version |
| Parents.OperatorSyncStopsAtFailure | pkg/controllers/operator/operator_controller.go:337-366 | For every fate and lag: no call after a creation that did not go through, and success if and only if the last thing done was an operator write that went through |
| Parents.OperatorSyncRecordsItsGroup | pkg/controllers/operator/operator_controller.go:368-378 | For every fate and lag, that write carries the operator with exactly "ns/name" of the spec's group put on record as Ready, and the operator Ready |
| Parents.FirstSpecsWin | pkg/controllers/operator/operator_controller.go:325-335 | The specs are served in order: of several specs with the same namespace and name the first gets the group |
| Parents.ResyncIff | pkg/controllers/operator/operator_controller.go:340-343 | Syncing again after a success, with the operator as stored by then, changes no group and succeeds again if and only if the spec names a namespace; the server is one that defaults nothing |
| Parents.ResyncFailsWithoutNamespace | pkg/controllers/operator/operator_controller.go:340-343 | The failure happens: for any operator and any spec without a namespace, on a server without groups, the first sync succeeds and the second fails |
| Parents.RunOnlyAdds | pkg/controllers/operator/operator_controller.go:325-347 | A whole run over an operator's specs, whatever the staleness and the losses, changes no existing group, deployment or service, and adds only groups the operator controls, each made for one of its specs under that spec's key |
| Parents.GroupsAreMadeOnce | pkg/controllers/operator/operator_controller.go:325-365 | When calls succeed, every spec has its group after the run, a new one being made for the first spec of its key; a second run, whatever became of the operator's own object, changes no group, and asks for the creation of one if and only if some spec names no namespace |
| Parents.MadeGroupExact | pkg/controllers/utils/operator_utils.go:300-312 | A made group has its spec's name and namespace, "default" if there is none, the label "datafuse-operator" with the operator's "ns-name", the operator as its one owner, and no status |
| Parents.MadeForOperator | pkg/controllers/utils/operator_utils.go:300-312 | A made group is controlled by its operator, keeps its spec, has a namespace, and defaulting it again changes nothing |
| Deploy.WantedIsOwned | pkg/controllers/utils/operator_utils.go:255-297 | A wanted deployment has its group as its one owner and controller, the set's replicas, and its name and namespace as key |
| Objects.DeepCopyInstance | pkg/apis/datafuse/v1alpha1/zz_generated.deepcopy.go:163-237 | An equal instance spec, nil where the original has nil, with every pointer and the label map new |
| Objects.DeepCopySet | pkg/apis/datafuse/v1alpha1/zz_generated.deepcopy.go:265-273 | The same for a set spec, its replica pointer included |
| Objects.DeepCopyWorkers | pkg/apis/datafuse/v1alpha1/zz_generated.deepcopy.go:109-118 | For any number of workers, nil entries included: equal element by element, every element's pointers new |
| Objects.DeepCopySlice | pkg/apis/datafuse/v1alpha1/zz_generated.deepcopy.go:109-119 | The slice itself new as well, nil for nil |
| Objects.DeepCopySpec | pkg/apis/datafuse/v1alpha1/zz_generated.deepcopy.go:102-120 | An equal group spec made of new cells only |
| Objects.DeepCopyStatus | pkg/apis/datafuse/v1alpha1/zz_generated.deepcopy.go:133-150 | An equal status whose two maps are new and different maps |
| Objects.DeepCopyBase | pkg/apis/datafuse/v1alpha1/zz_generated.deepcopy.go:43-49 | Metadata and spec: equal, nil labels for nil labels, everything reachable new |
| Objects.GroupObject.DeepCopy | pkg/apis/datafuse/v1alpha1/zz_generated.deepcopy.go:52-59 | The whole group: an equal value made of new cells only, its status maps apart from each other and from all the rest |

## Left out

- HTTP, JSON, REST clients, event recorder, logging, informer wiring: replaced by the network and API server above. A status code is not modelled, as posting ignores it.
- Delays of the rate limiter: an item's waiting is a step that may take any time; only the counts are kept.
- The order in which the work queue hands out ready items: any ready item may come next.
- Selectors of deployments: the server refuses an update that changes one, which is one of the calls that may fail; it happens when a group's operator label or a set's role changes together with its replicas.
- Finalizers and garbage collection: a deletion takes effect at once.
- Container ports, probes, CPU and memory quantities, service ports: they are settled by reading one function each.
- Pods have one container, the only one the builder makes and the parser reads.
- Environment variable names are an enumeration, not text; variables the parser skips are one more constructor each.
- `handleObject`: it only enqueues for an owner kind no object here has.
- Whether the group update handler ever runs: it asserts value types where the informer passes pointers, so `HandleUnneededDeployments` is a contract on its arguments.
- Lists of groups and operators, and the deep copies of types the reconciler does not copy.
- Objects.DeepCopyInstance: what a pointer to a number or a text refers to is constant in the model, as no modelled code writes through one; maps, slices and structs can be written to.
- Objects.GroupObject.DeepCopy: states freshness of the cells that can be written to; DeepCopyBase and DeepCopyStatus state it of everything reachable. The metadata and the spec of a group object are not reassigned once set, as no modelled code does.
- Operator.OperatorController.SyncComputeGroup: the source's one function is four methods here, and the set spec is passed as a value.
- Membership.RunStaysSynced: events are handled one after the other, each before the next one happens, and the leaders that are ready answer; HistoryInvariant and FailureNeverMovesAway say what holds without that.
- Uniqueness of "namespace-name" keys across namespaces: the join is not injective there.
